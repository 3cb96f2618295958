/**
 * The records the client receives from and sends to the backend, mirroring
 * `src/types/index.ts`. Only the fields the modelled logic reads are kept.
 * Timestamps and dates stay opaque ISO strings.
 */
module Types {
  import opened Wrappers

  datatype Role = Patient | Doctor
  datatype Severity = Low | Medium | High | Critical
  datatype EscalationStatus = Open | Acknowledged | Resolved
  datatype RequestStatus = Pending | Accepted | Rejected
  datatype ChatSessionStatus = Requested | Active | Closed
  datatype RecoveryTaskStatus = TaskPending | Completed | Skipped
  datatype ToastType = Success | Error | Warning | Info | Alert

  /** The generic `{success, data, message}` envelope every endpoint answers with. */
  datatype ApiResponse<+T> = ApiResponse(success: bool, data: Option<T>, message: Option<string>)

  datatype SafeUser = SafeUser(
    id: string,
    email: string,
    name: string,
    role: Role,
    connectCode: string,
    surgeryDate: Option<string>,
    surgeryType: Option<string>,
    caregiverEmail: Option<string>,
    whatsappPhone: Option<string>)

  /** A doctor-patient link; `doctor` is the joined user row, if the backend sent it. */
  datatype DoctorLink = DoctorLink(
    linkId: string,
    doctorId: string,
    patientId: string,
    specialty: Option<string>,
    isActive: bool,
    doctor: Option<SafeUser>)

  datatype ChatMessage = ChatMessage(
    id: string,
    sessionId: string,
    senderId: Option<string>,
    senderName: Option<string>,
    content: string,
    isAi: bool,
    isVoice: bool,
    audioUrl: Option<string>,
    imageUrl: Option<string>,
    createdAt: string)

  /** `patientName` is read by the chat page although the TypeScript interface omits it. */
  datatype ChatSession = ChatSession(
    id: string,
    patientId: string,
    doctorId: Option<string>,
    status: ChatSessionStatus,
    title: string,
    patientName: Option<string>,
    isRequest: bool,
    lastMessage: Option<string>,
    unread: nat)

  datatype NewMessageEvent = NewMessageEvent(sessionId: string, message: ChatMessage)

  /** What the AI endpoint returns: the stored user message and the generated reply. */
  datatype AiExchange = AiExchange(userMessage: ChatMessage, aiReply: ChatMessage)

  datatype MedicationInput = MedicationInput(
    name: string,
    dosage: string,
    frequency: string,
    timeOfDay: string,
    instructions: string)

  datatype SymptomLog = SymptomLog(
    id: string,
    date: Option<string>,
    painLevel: real,
    fatigueLevel: real,
    mood: real,
    sleepHours: real,
    appetite: real,
    energy: real,
    temperature: Option<real>,
    notes: Option<string>,
    createdAt: string)
  {
    /** The timestamp a log is shown and filed under: `date ?? created_at`. */
    function When(): (t: string)
      ensures date.Some? ==> t == date.value
      ensures date.None? ==> t == createdAt
    {
      date.GetOr(createdAt)
    }
  }

  datatype SymptomTrendPoint = SymptomTrendPoint(
    date: string,
    painLevel: real,
    fatigueLevel: real,
    mood: real,
    sleepHours: real,
    appetite: real,
    energy: real)

  datatype Escalation = Escalation(
    id: string,
    patientId: string,
    severity: Severity,
    status: EscalationStatus,
    isSos: bool)

  datatype RecoveryTask = RecoveryTask(
    id: string,
    title: string,
    description: Option<string>,
    frequency: Option<string>,
    dueDate: Option<string>,
    isActive: bool,
    status: RecoveryTaskStatus)

  datatype CarePlan = CarePlan(
    medications: Option<seq<MedicationInput>>,
    expectedRecoveryDate: Option<string>,
    recoveryDuration: Option<string>,
    careNotes: Option<string>)

  datatype AiStructuredPlan = AiStructuredPlan(conditionSummary: string, urgency: Option<string>)

  datatype RequestResponse = RequestResponse(
    id: string,
    fromId: string,
    toId: string,
    status: RequestStatus,
    aiStructuredPlan: Option<AiStructuredPlan>)

  datatype Toast = Toast(id: string, kind: ToastType, title: string, message: string)
}

/**
 * The patient dashboard (src/pages/PatientDashboard.tsx): the greeting, the recovery-day
 * counter, the doctors metric, and the recovery-task checklist with its toggle.
 */
module Dashboard {
  import opened Wrappers
  import opened Text
  import opened Types
  import opened Seqs

  datatype Greeting = Morning | Afternoon | Evening

  /** `getTimeOfDay` for a local hour 0-23. */
  function TimeOfDay(hour: int): (g: Greeting)
    requires 0 <= hour < 24
    ensures g == Morning <==> hour < 12
    ensures g == Afternoon <==> 12 <= hour < 17
    ensures g == Evening <==> 17 <= hour
  {
    if hour < 12 then Morning else if hour < 17 then Afternoon else Evening
  }

  /**
   * The recovery day: days since the surgery date, shown only when the user has a non-empty
   * surgery date. The day difference itself is the parameter `daysSince`.
   */
  function SurgeryDay(user: Option<SafeUser>, daysSince: string -> int): (r: Option<int>)
    ensures r.None? <==> user.None? || !Truthy(user.value.surgeryDate)
    ensures r.Some? ==> r.value == daysSince(user.value.surgeryDate.value)
  {
    if user.Some? && Truthy(user.value.surgeryDate) then Some(daysSince(user.value.surgeryDate.value))
    else None
  }

  /** What a doctor's name shows as: "?" when the link came without its doctor. */
  function DoctorName(l: DoctorLink): string {
    if l.doctor.Some? then l.doctor.value.name else "?"
  }

  function DoctorNames(links: seq<DoctorLink>): (names: seq<string>)
    ensures |names| == |links|
    ensures forall i :: 0 <= i < |links| ==> names[i] == DoctorName(links[i])
  {
    if links == [] then [] else [DoctorName(links[0])] + DoctorNames(links[1..])
  }

  /** The "Doctors" card: the names joined by ", ", or "Not linked" when there are none. */
  function DoctorsMetric(links: Option<seq<DoctorLink>>): (r: string)
    ensures links.None? || links.value == [] ==> r == "Not linked"
    ensures links.Some? && links.value != [] ==> r == Join(DoctorNames(links.value), ", ")
  {
    if links.Some? && |links.value| > 0 then Join(DoctorNames(links.value), ", ") else "Not linked"
  }

  /** One linked doctor shows as that doctor's name; two show as both names, in order, with ", " between. */
  lemma DoctorsMetricExamples(a: DoctorLink, b: DoctorLink)
    ensures DoctorsMetric(Some([a])) == DoctorName(a)
    ensures DoctorsMetric(Some([a, b])) == DoctorName(a) + ", " + DoctorName(b)
  {
    var names := DoctorNames([a, b]);
    assert names == [DoctorName(a), DoctorName(b)];
    assert names[1..] == [DoctorName(b)];
    assert Join(names, ", ") == names[0] + ", " + Join(names[1..], ", ");
  }

  /** "n/m done": the completed tasks among all the patient's tasks. */
  function DoneCount(tasks: seq<RecoveryTask>): (n: nat)
    ensures n <= |tasks|
  {
    Count(tasks, (t: RecoveryTask) => t.status.Completed?)
  }

  /** The count reaches the total exactly when every task is completed, and is 0 exactly when none is. */
  lemma {:induction false} DoneCountExtremes(tasks: seq<RecoveryTask>)
    ensures DoneCount(tasks) == |tasks| <==> forall i :: 0 <= i < |tasks| ==> tasks[i].status.Completed?
    ensures DoneCount(tasks) == 0 <==> forall i :: 0 <= i < |tasks| ==> !tasks[i].status.Completed?
  {
    if tasks != [] {
      DoneCountExtremes(tasks[1..]);
      assert forall i :: 1 <= i < |tasks| ==> tasks[i] == tasks[1..][i - 1];
    }
  }

  /** What clicking a task's circle asks the server to do. */
  datatype TaskAction = UndoTask(taskId: string) | CompleteTask(taskId: string, note: Option<string>)

  /** A completed task is undone; any other status is completed, without a note. */
  function TaskClick(t: RecoveryTask): (a: TaskAction)
    ensures a.taskId == t.id
    ensures a.UndoTask? <==> t.status.Completed?
    ensures a.CompleteTask? ==> a.note.None?
  {
    if t.status.Completed? then UndoTask(t.id) else CompleteTask(t.id, None)
  }

  /**
   * The "n/m done" counter counts exactly the tasks whose circle would undo them: the tasks
   * shown with a check mark.
   */
  lemma DoneCountIsUndoCount(tasks: seq<RecoveryTask>)
    ensures DoneCount(tasks) == Count(tasks, (t: RecoveryTask) => TaskClick(t).UndoTask?)
  {
    CountAgreeing(tasks, (t: RecoveryTask) => t.status.Completed?, (t: RecoveryTask) => TaskClick(t).UndoTask?);
  }

  /** Every task button is disabled while either request is in flight. */
  function TaskButtonsDisabled(completePending: bool, undoPending: bool): (r: bool)
    ensures !r <==> !completePending && !undoPending
  {
    completePending || undoPending
  }
}

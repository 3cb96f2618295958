# RecoverEase client rules in Dafny

RecoverEase is a post-surgery recovery tracker. Patients log symptoms (also by voice), see
their history and tasks, and chat with linked doctors and with an AI assistant. Doctors see
patients, write care plans and accept chat requests. This project models the rules the React
front end applies on its own side. Server answers are inputs to the model, and so are the
browser facilities it depends on.

- **Chat client** (`chat.dfy`, `chat_views.dfy`, `chat_voice.dfy`). The session list, the
  per-session message cache, the selection, the compose and dictation text and the pending
  flags form one class, `Chat.ChatClient`. Its methods are the success and failure handlers
  that merge server results into that state:
  - socket delivery, deduplicated by message id;
  - REST text, voice and image sends, which append with no id check;
  - the AI reply, which appends two messages;
  - AI-session insertion;
  - `handleSend` and dictation.

  The derived views are functions: date grouping (a loop, proved against `Flatten`), status
  gating of compose, Accept and Close, the session, pending and doctor-candidate filters,
  thread titles and bubble payload precedence. The voice hooks cover the speech-result loop,
  the recorder with its 120-second auto-stop, and the `m:ss` display.
- **Voice-command parser** (`symptom_log.dfy`). The fixed-order pattern loop with its range
  limits, cut-out and clean-up. The regular expressions are an oracle
  `matcher(field, text)`. The module also covers the merge into the symptom form and the
  form's range schema.
- **Store** (`store.dfy`). The toast queue with its counter-based ids, and the auth slice
  mirrored into a persisted token (`browser.dfy` stands in for `localStorage` and
  `window.location`).
- **Patient detail and requests** (`patient_detail.dfy`, `requests.dfy`,
  `medication_rows.dfy`):
  - the severity histogram, risk data, open escalations and the date-sorted trend;
  - the completed/active task counts and the task and care-plan forms;
  - the three-step "send care plan" wizard, its payload and the urgency key.
- **Validators and small rules**:
  - `register.dfy`: the phone rule `^\+[1-9]\d{6,19}$`, spelled out;
  - `profile.dfy`: the blank-to-absent and blank-to-null payload mappings;
  - `input_field.dfy`: the input id derivation;
  - `sidebar.dfy`: the sidebar initials and navigation highlighting;
  - `api_client.dfy`: the axios interceptors;
  - `heatmap.dfy` and `history.dfy`: the threshold classifiers for heatmap colour and history
    badge;
  - `dashboard.dfy`: the greeting and task toggle.

Shared modules: `Wrappers` (Option and a three-way `Nullable` for absent/null/value), `Text`
(JavaScript string operations on ASCII), `Seqs` (filter and count) and `Types` (the records
of `src/types/index.ts`).

The code behaves as follows in these cases, and the model does the same:
- the REST send paths append without an id check, so a socket echo that arrives *first*
  followed by the REST answer leaves a duplicate (`Chat.RestAfterEchoDuplicates`); the
  opposite order is deduplicated (`Chat.EchoAfterRestIsDropped`);
- the requesting patient gets a compose box on a REQUESTED session, with a waiting banner
  (`ChatViews.ComposeShown`, `ChatViews.WaitingBanner`);
- the AI-session button asks for creation whenever no AI session is in the list; there is no
  in-flight guard against a second click (`Chat.ChatClient.OpenAiSession`);
- the phone rule admits up to 20 digits after the `+`, more than the 15 of ITU-T
  Recommendation E.164, although its message calls the format E.164
  (`Register.LongerThanE164Accepted`).

## Model

| member | source | states |
|---|---|---|
| Types.SymptomLog.When | src/components/charts/MedicationHeatmap.tsx:23 | a log's day is its `date` when present, else its `created_at` |
| Chat.DeliverOnce | src/pages/ChatPage.tsx:449-452 | socket delivery: a message whose id is already listed is dropped, any other is appended at the end (proved about in the rows below) |
| Chat.DeliverOnceKeepsIdsUnique | src/pages/ChatPage.tsx:449-452 | socket delivery into a list with distinct ids keeps ids distinct, and the delivered id is then present |
| Chat.DeliverOnceIdempotent | src/pages/ChatPage.tsx:449-452 | delivering the same message twice gives the same list as delivering it once |
| Chat.DeliverOnceHas | src/pages/ChatPage.tsx:449-452 | after delivery an id is present iff it was before or is the delivered one; the old list is a prefix of the new one |
| Chat.DeliverAllUnique | src/pages/ChatPage.tsx:449-452 | any run of socket deliveries keeps ids distinct, keeps the old list as prefix, and holds exactly the old ids plus the delivered ones |
| Chat.EchoAfterRestIsDropped | src/pages/ChatPage.tsx:350-353 | a socket echo of a message the REST answer already appended leaves the list unchanged |
| Chat.RestAfterEchoDuplicates | src/pages/ChatPage.tsx:350-353 | the REST append after a socket delivery of the same message yields a duplicate id |
| Chat.InsertSessionOnce | src/pages/ChatPage.tsx:935-939 | AI-session insertion: a session whose id is listed is not added again, a new one goes to the front (proved about in `InsertSessionOnceShape`) |
| Chat.InsertSessionOnceShape | src/pages/ChatPage.tsx:935-939 | a known session id leaves the list unchanged, a new one is put at index 0 with the rest after it; the id is present afterwards; insertion is idempotent |
| Chat.FindSession | src/pages/ChatPage.tsx:984 | a found session is in the list with the selected id; none iff nothing is selected or no session has that id |
| Chat.FindAiSession | src/pages/ChatPage.tsx:1022 | the FIRST session without a doctor: it is in the list, has no doctor, and every session before it has one; none iff no session in the list lacks a doctor |
| Chat.SendDecision | src/pages/ChatPage.tsx:476-484 | no send iff the trimmed text is empty or a text send is pending; otherwise the trimmed text is sent, flagged as voice iff dictation was on, to the AI iff the session has no doctor |
| Chat.MergeDictation | src/pages/ChatPage.tsx:464 | a final transcript replaces empty compose text, otherwise it is appended after one space |
| Chat.ChatClient.constructor | src/pages/ChatPage.tsx:323-328 | no sessions, an empty cache, nothing selected, empty texts, no pending flags, no image |
| Chat.ChatClient.OnSocketMessage | src/pages/ChatPage.tsx:449-452 | the open session's list becomes the deduplicated delivery; nothing else changes |
| Chat.ChatClient.AppendReturned | src/pages/ChatPage.tsx:365-368 | a returned message is appended to that session's list with no id check; no message leaves the cache unchanged |
| Chat.ChatClient.OnTextSent | src/pages/ChatPage.tsx:348-355 | the returned message is appended at the end; the text send is no longer pending; the rest is unchanged |
| Chat.ChatClient.OnVoiceSent | src/pages/ChatPage.tsx:362-370 | the returned voice message is appended at the end; nothing else changes |
| Chat.ChatClient.OnImageSent | src/pages/ChatPage.tsx:379-389 | the returned message is appended at the end and the picked image is cleared |
| Chat.ChatClient.OnAiReply | src/pages/ChatPage.tsx:417-427 | the user message and then the AI reply are appended at the end; typing and the AI send stop |
| Chat.ChatClient.OnSendFailed | src/pages/ChatPage.tsx:429-431 | a failed send clears the pending flag of its own route (and typing for the AI); the cache and selection are unchanged |
| Chat.ChatClient.OnAiSession | src/pages/ChatPage.tsx:932-940 | the session is inserted once, at the front; it is selected only when nothing was selected |
| Chat.ChatClient.OnChatRequested | src/pages/ChatPage.tsx:952-957 | a returned session becomes the selection |
| Chat.ChatClient.Select | src/pages/ChatPage.tsx:1058 | the clicked session becomes the selection |
| Chat.ChatClient.OpenAiSession | src/pages/ChatPage.tsx:1021-1024 | an existing AI session is selected; creation is requested iff the list holds none |
| Chat.ChatClient.HandleSend | src/pages/ChatPage.tsx:476-484 | the route is `SendDecision` of the state before the click; a send clears text and interim text and stops dictation, then marks the route's send pending (and AI typing) |
| Chat.ChatClient.ToggleDictation | src/pages/ChatPage.tsx:245-248 | dictation turns on iff it was off and speech recognition is supported |
| Chat.ChatClient.OnDictationEnded | src/pages/ChatPage.tsx:232-233 | an end or error of recognition turns dictation off |
| Chat.ChatClient.OnTranscript | src/pages/ChatPage.tsx:462-469 | a final transcript is merged into the text and clears the interim text; an interim one only replaces the interim text |
| Chat.FindMessageId | src/pages/ChatPage.tsx:450 | the scan answers true iff some message has the id |
| Chat.FindSessionId | src/pages/ChatPage.tsx:936 | the scan answers true iff some session has the id |
| ChatViews.ComposeShown | src/pages/ChatPage.tsx:734-738 | compose is shown iff the session is ACTIVE, or REQUESTED and the viewer is its patient |
| ChatViews.AcceptShown | src/pages/ChatPage.tsx:1071-1075 | Accept is offered iff a doctor views a REQUESTED session |
| ChatViews.CloseShown | src/pages/ChatPage.tsx:1076-1080 | Close is offered iff the session is ACTIVE |
| ChatViews.WaitingBanner | src/pages/ChatPage.tsx:544 | the waiting banner shows iff the viewer is the patient of a REQUESTED session, and then compose shows and Close does not |
| ChatViews.SessionControlsExclusive | src/pages/ChatPage.tsx:526-534 | Accept and Close never show together; a CLOSED session shows none of Accept, Close and compose; a doctor who may accept cannot compose yet |
| ChatViews.SendEnabled | src/pages/ChatPage.tsx:825 | the send button is enabled iff the trimmed text is non-empty and no text send is pending |
| ChatViews.SendEnabledMatchesDecision | src/pages/ChatPage.tsx:478 | the button is enabled exactly when `handleSend` would send |
| ChatViews.VisibleSessions | src/pages/ChatPage.tsx:1052 | a patient's list holds exactly the doctor sessions, each once, in list order (the sessions at the kept positions); other viewers see all sessions |
| ChatViews.PendingRequests | src/pages/ChatPage.tsx:985 | a doctor's pending list holds exactly the REQUESTED sessions, each once, in list order, so its length is their number; others get none |
| ChatViews.SessionDoctorIds | src/pages/ChatPage.tsx:855 | exactly the non-empty doctor ids of existing sessions |
| ChatViews.RequestCandidates | src/pages/ChatPage.tsx:855-856 | candidates are exactly the links with a non-empty doctor id that no existing session has, each once, in link order |
| ChatViews.RequestedDoctorLeavesCandidates | src/pages/ChatPage.tsx:855-856 | once a session with a doctor exists, that doctor is no longer a candidate |
| ChatViews.ThreadTitle | src/pages/ChatPage.tsx:335-339 | the title is the patient's name for a doctor viewing a doctor session with a known name, and the session title otherwise |
| ChatViews.BubbleFor | src/pages/ChatPage.tsx:106-130 | audio wins over image and image over text; an audio bubble carries any non-empty text as caption |
| ChatViews.OpenGroup | src/pages/ChatPage.tsx:499-500 | a message whose label differs from the last group's opens a new group: the grouping stays well formed and its concatenation gains exactly that message |
| ChatViews.ExtendGroup | src/pages/ChatPage.tsx:501-502 | a message with the last group's label joins that group: the grouping stays well formed, keeps its length, and its concatenation gains exactly that message |
| ChatViews.GroupByDate | src/pages/ChatPage.tsx:496-504 | concatenating the groups gives the messages back; groups are non-empty, all of one label, and adjacent labels differ |
| ChatVoice.Joined | src/pages/ChatPage.tsx:223-227 | the transcripts of the results of one finality, concatenated in result order |
| ChatVoice.JoinedEmptyIff | src/pages/ChatPage.tsx:223-227 | the joined text of one finality is empty iff every result of that finality is empty |
| ChatVoice.OnSpeechResult | src/pages/ChatPage.tsx:218-230 | the loop from `resultIndex` yields the final text if any, else the interim text if any, else no callback |
| ChatVoice.Recorder.constructor | src/pages/ChatPage.tsx:256-259 | not recording, zero duration, no chunks |
| ChatVoice.Recorder.Start | src/pages/ChatPage.tsx:264-291 | with microphone access granted, recording starts with zero duration and no chunks; without it nothing changes |
| ChatVoice.Recorder.OnData | src/pages/ChatPage.tsx:275-277 | only non-empty chunks are kept, in arrival order |
| ChatVoice.Recorder.Stop | src/pages/ChatPage.tsx:278-297 | recording stops; the collected chunks are handed on iff it was recording |
| ChatVoice.Recorder.Tick | src/pages/ChatPage.tsx:286-302 | each second adds one to the duration; at 120 seconds the recorder stops itself and hands on its chunks |
| ChatVoice.TwoDigits | src/pages/ChatPage.tsx:684 | the seconds are always shown as exactly two digits |
| ChatVoice.TwoDigitsReadsBack | src/pages/ChatPage.tsx:684 | the two padded digits read back as the number |
| ChatVoice.FormatDuration | src/pages/ChatPage.tsx:684 | minutes, a colon, then two second digits |
| ChatVoice.FormatDurationReadsBack | src/pages/ChatPage.tsx:684 | the shown text reads back as the whole minutes of the duration, a colon, and the remaining seconds (below 60) |
| SymptomLog.FieldLabel | src/pages/SymptomLogPage.tsx:31-39 | the label each field is announced with: Pain, Fatigue, Mood, Sleep, Appetite, Energy, Temp |
| SymptomLog.MinOf | src/pages/SymptomLogPage.tsx:41-49 | the lower voice limit: 0 for sleep, 90 for temperature, 1 otherwise |
| SymptomLog.MaxOf | src/pages/SymptomLogPage.tsx:41-49 | the upper voice limit: 16 for sleep, 115 for temperature, 10 otherwise; always above the lower limit |
| SymptomLog.TryPattern | src/pages/SymptomLogPage.tsx:58-66 | one pattern: no match or an out-of-range value leaves the state; an accepted value is recorded and its matched text cut once, then the text trimmed (proved about in `OutOfRangeIgnored`, `AcceptedCutsFirstOccurrence`, `TryPatternStep`) |
| SymptomLog.TryPatterns | src/pages/SymptomLogPage.tsx:57-67 | the patterns tried in list order, each on the text the earlier ones left (proved about in `TryPatternsWellFormed`) |
| SymptomLog.ParseResult | src/pages/SymptomLogPage.tsx:51-72 | the parser's answer: the fields of the pattern pass and the normalised leftover (`ParseVoiceCommands` computes it) |
| SymptomLog.Rank | src/pages/SymptomLogPage.tsx:21-29 | each field has one position in the fixed pattern order |
| SymptomLog.StripPunct | src/pages/SymptomLogPage.tsx:70 | punctuation runs become a space: no `, ; . ! ?` remains and no other character appears |
| SymptomLog.CollapseSpaces | src/pages/SymptomLogPage.tsx:70 | no two whitespace characters remain adjacent |
| SymptomLog.NoPunctFrom | src/pages/SymptomLogPage.tsx:70 | collapsing whitespace adds no punctuation |
| SymptomLog.TrimKeepsClean | src/pages/SymptomLogPage.tsx:70 | trimming keeps text free of punctuation and double whitespace |
| SymptomLog.Normalize | src/pages/SymptomLogPage.tsx:70 | the leftover has no punctuation, no double whitespace, and no whitespace at either end |
| SymptomLog.SquashAppend | src/pages/SymptomLogPage.tsx:70 | the words of a concatenation are the words of its parts, in order |
| SymptomLog.SquashSeparators | src/pages/SymptomLogPage.tsx:70 | a run of white space and `, ; . ! ?` holds no words |
| SymptomLog.SquashSplitAt | src/pages/SymptomLogPage.tsx:70 | cutting a text in two splits its words in two |
| SymptomLog.StripPunctKeepsWords | src/pages/SymptomLogPage.tsx:70 | turning punctuation runs into a space keeps every word, in order |
| SymptomLog.CollapseKeepsWords | src/pages/SymptomLogPage.tsx:70 | collapsing white-space runs keeps every word, in order |
| SymptomLog.TrimKeepsWords | src/pages/SymptomLogPage.tsx:70 | trimming keeps every word |
| SymptomLog.NormalizeKeepsWords | src/pages/SymptomLogPage.tsx:70 | the clean-up only drops, merges or replaces separators: with every separator removed, the leftover equals the input |
| SymptomLog.ParseVoiceCommands | src/pages/SymptomLogPage.tsx:51-72 | the loop tries each pattern once in order against the text the earlier ones left, then normalises |
| SymptomLog.RankOfPlace | src/pages/SymptomLogPage.tsx:57 | the field at each place of the pattern order has that place as its rank |
| SymptomLog.TryPatternStep | src/pages/SymptomLogPage.tsx:58-66 | trying a pattern whose rank is above every recorded field keeps the fields ordered, unique and in range |
| SymptomLog.TryPatternsWellFormed | src/pages/SymptomLogPage.tsx:57-67 | after the first n patterns, recorded fields are in pattern order, each once, each in range |
| SymptomLog.ParsedFieldsWellFormed | src/pages/SymptomLogPage.tsx:41-67 | every parsed field lies within its inclusive limits, in pattern order, never twice |
| SymptomLog.OutOfRangeIgnored | src/pages/SymptomLogPage.tsx:62-66 | an out-of-range match leaves both the fields and the text unchanged |
| SymptomLog.AcceptedCutsFirstOccurrence | src/pages/SymptomLogPage.tsx:64 | an accepted match records the value and cuts the first occurrence of the matched text, then trims |
| SymptomLog.SchemaOk | src/pages/SymptomLogPage.tsx:74-83 | the form schema: every slider field present, within 1-10, sleep within 0-24, temperature optional and unbounded |
| SymptomLog.DefaultValues | src/pages/SymptomLogPage.tsx:100-107 | the defaults 5/5/5/7/5/5 satisfy the schema and leave temperature unset |
| SymptomLog.AssignKeepsSchema | src/pages/SymptomLogPage.tsx:74-83 | values within the voice limits (sleep up to 16) keep the form within its schema (sleep up to 24) |
| SymptomLog.Assign | src/pages/SymptomLogPage.tsx:150-151 | `setValue` for each parsed field in order, a later value for the same field winning (proved about in `AssignSetsFields`, `AssignKeepsOthers`) |
| SymptomLog.AssignSetsFields | src/pages/SymptomLogPage.tsx:150-153 | every parsed field is set to its parsed value |
| SymptomLog.AssignKeepsOthers | src/pages/SymptomLogPage.tsx:150-153 | a field that was not parsed keeps its value, and stays absent when it was absent |
| SymptomLog.Announce | src/pages/SymptomLogPage.tsx:152 | an entry carries the field's label and value, with an "h" unit for sleep only |
| SymptomLog.Announcements | src/pages/SymptomLogPage.tsx:149-153 | one entry per filled field, in order |
| SymptomLog.ApplyFields | src/pages/SymptomLogPage.tsx:149-153 | the loop sets each recorded field in turn (`Assign`) and collects one announcement per field, in order |
| SymptomLog.MergeNotes | src/pages/SymptomLogPage.tsx:156-159 | leftover text replaces empty notes, is appended after one space otherwise, and no leftover leaves the notes unchanged |
| SymptomLog.Notice | src/pages/SymptomLogPage.tsx:161-166 | the fills are announced iff some field was filled; "Nothing matched" iff nothing was filled and nothing was left over |
| SymptomLog.SymptomForm.constructor | src/pages/SymptomLogPage.tsx:100-107 | the form starts at the defaults with empty notes |
| SymptomLog.SymptomForm.OnVoiceResult | src/pages/SymptomLogPage.tsx:144-166 | the parsed fields are set, the leftover is merged into the notes, and the notice follows `Notice`; the schema still holds |
| SymptomLog.SymptomForm.Fill | src/pages/SymptomLogPage.tsx:150-166 | the values, notes and notice after a parse |
| Store.ToastId | src/store/useStore.ts:52 | `toast-`, the counter, `-`, the time, in decimal (proved injective in `ToastIdInjective`) |
| Store.FirstDashAfterDigits | src/store/useStore.ts:52 | in a digit string followed by "-", the first "-" is right after the digits |
| Store.DigitsDashSplit | src/store/useStore.ts:52 | digits, "-", then a rest: two such texts are equal only with equal digits and equal rests |
| Store.ToastIdInjective | src/store/useStore.ts:52 | different counter or time values never give the same toast id |
| Store.WithoutToast | src/store/useStore.ts:59-60 | the queue filtered to the toasts with another id (proved about in `WithoutToastSound`) |
| Store.WithoutToastSound | src/store/useStore.ts:59-60 | removal keeps exactly the toasts with another id, in their original order (the list is the queue at the kept positions), and ids stay distinct |
| Store.WithoutUnknownToast | src/store/useStore.ts:59-60 | removing an unknown id leaves the list unchanged |
| Store.AppStore.constructor | src/store/useStore.ts:36-63 | no user, the persisted token, no toasts, counter 0, not connected |
| Store.AppStore.AddToast | src/store/useStore.ts:51-53 | the counter goes up by one, one toast is appended at the end with an id no earlier toast has; auth is unchanged |
| Store.AppStore.RemoveToast | src/store/useStore.ts:59-60 | the toasts become the list without that id |
| Store.AppStore.SetAuth | src/store/useStore.ts:39-42 | user, token and persisted token all take the arguments |
| Store.AppStore.SetUser | src/store/useStore.ts:43 | only the user changes |
| Store.AppStore.Logout | src/store/useStore.ts:44-47 | user, token and persisted token are all cleared |
| Store.AppStore.SetConnected | src/store/useStore.ts:64 | only the connected flag changes |
| MedicationRows.EmptyMed | src/pages/PatientDetailPage.tsx:39-41 | every field of a new row is empty |
| MedicationRows.SetField | src/pages/PatientDetailPage.tsx:195 | the field takes the value and the other fields are kept |
| MedicationRows.UpdateMed | src/pages/PatientDetailPage.tsx:192-198 | only field f of row i changes; the length and the other rows are kept |
| MedicationRows.AddMed | src/pages/PatientDetailPage.tsx:638 | one empty row is appended after the existing rows |
| MedicationRows.DropIndexSlices | src/pages/PatientDetailPage.tsx:655 | the filter by index drops exactly the row at that index |
| MedicationRows.DropIndexUnreached | src/pages/PatientDetailPage.tsx:655 | an index before the scan start drops nothing |
| MedicationRows.RemoveMed | src/pages/PatientDetailPage.tsx:655 | the rows filtered by index, dropping index i (proved about in `RemoveMedDropsRow`) |
| MedicationRows.RemoveMedDropsRow | src/pages/PatientDetailPage.tsx:653-655 | removal drops exactly row i and keeps the order; one row fewer |
| MedicationRows.NamedRows | src/pages/PatientDetailPage.tsx:697 | the saved rows are exactly the rows whose trimmed name is non-empty, each once, in the order they were typed |
| MedicationRows.NamedRowsIdempotent | src/pages/PatientDetailPage.tsx:697 | filtering the saved rows again changes nothing |
| MedicationRows.AddedRowNotSaved | src/pages/PatientDetailPage.tsx:638 | an added empty row is not part of the save |
| PatientDetail.SeverityCounts | src/pages/PatientDetailPage.tsx:237-240 | every severity's count is the number of escalations with that severity |
| PatientDetail.SeverityCountsSum | src/pages/PatientDetailPage.tsx:237-240 | the four counts sum to the number of escalations |
| PatientDetail.SeverityEntries | src/pages/PatientDetailPage.tsx:241 | one entry per severity with its count, in the order LOW, MEDIUM, HIGH, CRITICAL |
| PatientDetail.RiskData | src/pages/PatientDetailPage.tsx:241-243 | exactly the severities with a positive count, in the order LOW, MEDIUM, HIGH, CRITICAL |
| PatientDetail.OpenEscalations | src/pages/PatientDetailPage.tsx:245 | exactly the OPEN escalations, in their original order (the list is the escalations at the kept positions) |
| PatientDetail.DateLeTotal | src/pages/PatientDetailPage.tsx:225 | any two dates compare one way or the other |
| PatientDetail.DateLeTransitive | src/pages/PatientDetailPage.tsx:225 | the date order is transitive |
| PatientDetail.InsertByDate | src/pages/PatientDetailPage.tsx:225 | insertion adds exactly one log |
| PatientDetail.SortedCons | src/pages/PatientDetailPage.tsx:225 | a log dated no later than every log of a sorted list can lead it |
| PatientDetail.InsertKeepsLowerBound | src/pages/PatientDetailPage.tsx:225 | insertion keeps any common lower bound of the dates |
| PatientDetail.InsertByDateSorted | src/pages/PatientDetailPage.tsx:225 | insertion into a sorted list keeps it sorted |
| PatientDetail.SortByDate | src/pages/PatientDetailPage.tsx:223-225 | the sort is a permutation of the logs |
| PatientDetail.SortByDateSorted | src/pages/PatientDetailPage.tsx:223-225 | the sort's result is ascending by date |
| PatientDetail.NoneOnEarlierDate | src/pages/PatientDetailPage.tsx:225 | a sorted list whose first date is after a log's date holds no log of that date |
| PatientDetail.SortedTail | src/pages/PatientDetailPage.tsx:225 | the tail of a date-sorted list is sorted |
| PatientDetail.InsertInFrontStable | src/pages/PatientDetailPage.tsx:225 | a log put in front of later-dated logs comes after every log of its own date |
| PatientDetail.InsertByDateStable | src/pages/PatientDetailPage.tsx:225 | insertion puts a log after every log already there with its date |
| PatientDetail.SortByDateStable | src/pages/PatientDetailPage.tsx:223-225 | the sort is stable: the logs of any one date come out in their input order |
| PatientDetail.TrendData | src/pages/PatientDetailPage.tsx:223-234 | one trend point per log |
| PatientDetail.TrendDataSorted | src/pages/PatientDetailPage.tsx:223-234 | the points are the logs' points, in ascending date order |
| PatientDetail.CompletedOfActive | src/pages/PatientDetailPage.tsx:248 | the completed count counts active COMPLETED tasks, the total counts active tasks, and completed never exceeds total |
| PatientDetail.ActiveCompletedCount | src/pages/PatientDetailPage.tsx:488 | counting COMPLETED among the active tasks equals counting active COMPLETED tasks |
| PatientDetail.DatePart | src/pages/PatientDetailPage.tsx:188 | the date part is the timestamp up to its first "T" (all of it when there is none) |
| PatientDetail.EditFormFor | src/pages/PatientDetailPage.tsx:183-190 | the edit form copies the title, turns absent texts into "", and cuts the due date to its date part |
| PatientDetail.TaskSaveEnabled | src/pages/PatientDetailPage.tsx:764 | save is enabled iff the trimmed title is non-empty |
| PatientDetail.TaskPayload | src/pages/PatientDetailPage.tsx:766-785 | the title as typed; empty texts left out; the active flag is sent iff editing, and then it is the task's own |
| PatientDetail.EditRoundTrip | src/pages/PatientDetailPage.tsx:183-190 | saving an edit form unchanged gives back the task's title, texts and active flag |
| PatientDetail.CarePlanForm.constructor | src/pages/PatientDetailPage.tsx:55-58 | one empty row and empty texts |
| PatientDetail.CarePlanForm.Open | src/pages/PatientDetailPage.tsx:169-175 | the plan's rows, or one empty row when there is no plan or no list; the recovery date cut to its date part; absent texts as "" |
| PatientDetail.CarePlanForm.UpdateRow | src/pages/PatientDetailPage.tsx:192-198 | the rows become `UpdateMed` of the old rows |
| PatientDetail.CarePlanForm.AddRow | src/pages/PatientDetailPage.tsx:638 | the rows become `AddMed` of the old rows |
| PatientDetail.CarePlanForm.RemoveRow | src/pages/PatientDetailPage.tsx:653-655 | with more than one row, the rows become `RemoveMed` of the old rows and at least one row remains |
| PatientDetail.CarePlanForm.Payload | src/pages/PatientDetailPage.tsx:696-701 | only named rows are saved; an empty date, duration or notes is left out |
| Requests.UrgencyKey | src/pages/RequestsPage.tsx:31 | the key is the lower-cased urgency ("medium" when absent) up to its first space, or all of it when there is no space |
| Requests.TwoWordUrgencyKey | src/pages/RequestsPage.tsx:31-40 | "High risk" gives key "high" and the high style |
| Requests.StyleFor | src/pages/RequestsPage.tsx:21-26 | the style for low, high or critical is that level's style; any other key gets the medium style |
| Requests.MissingUrgencyIsMedium | src/pages/RequestsPage.tsx:31-40 | a missing urgency gives key "medium" and the medium style |
| Requests.Incoming | src/pages/RequestsPage.tsx:198 | exactly the requests addressed to the current user, each once, in list order |
| Requests.Outgoing | src/pages/RequestsPage.tsx:366 | exactly the requests sent by the current user, each once, in list order |
| Requests.CarePlanWizard.constructor | src/pages/RequestsPage.tsx:296-309 | step 1, email mode, empty fields, one empty row, nothing looked up or sent |
| Requests.CarePlanWizard.SetMode | src/pages/RequestsPage.tsx:399 | on step 1 the mode takes the choice |
| Requests.CarePlanWizard.TypeCode | src/pages/RequestsPage.tsx:412-413 | the code box holds the upper-cased input, at most six characters |
| Requests.CarePlanWizard.TypeEmail | src/pages/RequestsPage.tsx:410 | the email box holds the input |
| Requests.CarePlanWizard.NextEnabled | src/pages/RequestsPage.tsx:418 | Next is enabled iff the email is not blank (email mode) or the trimmed code has exactly six characters (code mode) |
| Requests.CarePlanWizard.Step1Submit | src/pages/RequestsPage.tsx:357-363 | email mode goes to step 2; code mode stays put and asks for a lookup of the trimmed code |
| Requests.CarePlanWizard.OnLookup | src/pages/RequestsPage.tsx:318-325 | a found patient is kept and step 2 shown; no patient leaves the step and raises a warning |
| Requests.CarePlanWizard.SendEnabled | src/pages/RequestsPage.tsx:529 | Send is enabled iff the disease description is not blank |
| Requests.CarePlanWizard.Payload | src/pages/RequestsPage.tsx:329-335 | the recipient is the trimmed email or the trimmed upper-cased code by mode, never both; a blank specialty and an empty visit date are left out; only named rows |
| Requests.CarePlanWizard.OnSendSuccess | src/pages/RequestsPage.tsx:338-340 | step 3 with the server's answer kept |
| Requests.CarePlanWizard.Back | src/pages/RequestsPage.tsx:449 | from step 2 back to step 1, and the looked-up patient is forgotten |
| Requests.CarePlanWizard.SendAnother | src/pages/RequestsPage.tsx:559 | every field back to its initial value and step 1, the mode kept |
| Requests.CarePlanWizard.UpdateRow | src/pages/RequestsPage.tsx:347-353 | the rows become `UpdateMed` of the old rows |
| Requests.CarePlanWizard.AddRow | src/pages/RequestsPage.tsx:354 | the rows become `AddMed` of the old rows |
| Requests.CarePlanWizard.RemoveRow | src/pages/RequestsPage.tsx:355 | with more than one row, the rows become `RemoveMed` of the old rows |
| Register.PhoneRegex | src/pages/RegisterPage.tsx:21 | the phone pattern: "+", a digit 1-9, then 6 to 19 digits (proved equivalent to a length rule in `PhoneRegexIff`) |
| Register.DigitRunIff | src/pages/RegisterPage.tsx:21 | the digit run `\d{min,max}` matches iff the text is all digits with length in range |
| Register.PhoneRegexIff | src/pages/RegisterPage.tsx:19-23 | the phone rule holds iff the text is "+", a digit 1-9, then only digits, 8 to 21 characters in all |
| Register.PlaceholderAccepted | src/pages/RegisterPage.tsx:21 | the example number in the message passes |
| Register.LongerThanE164Accepted | src/pages/RegisterPage.tsx:21 | numbers of 16 to 20 digits, longer than E.164 permits, pass |
| Register.MalformedRejected | src/pages/RegisterPage.tsx:21 | a leading 0, too few digits or a missing "+" fail |
| Register.RegisterValid | src/pages/RegisterPage.tsx:14-25 | the schema: a name of at least 2 characters, a valid email, a password of at least 8, a phone and caregiver email that are absent, empty or valid |
| Register.InitialForm | src/pages/RegisterPage.tsx:42 | the role defaults to PATIENT and the optional fields start absent |
| Register.InitialFormInvalid | src/pages/RegisterPage.tsx:14-25 | the empty initial form fails validation |
| Register.CaregiverShown | src/pages/RegisterPage.tsx:160 | the caregiver section shows iff the role is PATIENT |
| Register.RegisterPayload | src/pages/RegisterPage.tsx:59-66 | name, email, password and role pass unchanged; an empty phone or caregiver email becomes absent, a non-empty one passes |
| Register.ValidPayloadFields | src/pages/RegisterPage.tsx:14-25 | a valid form sends a name of at least 2 and a password of at least 8 characters, a phone that is absent or matches the rule, and a caregiver email that is absent or passes the email check |
| Register.DoctorMayCarryCaregiver | src/pages/RegisterPage.tsx:160 | a caregiver email typed before switching to DOCTOR is hidden but still sent |
| Profile.ProfileValid | src/pages/ProfilePage.tsx:20-28 | the schema: a non-empty name, a caregiver email and phone that are absent, empty or valid |
| Profile.InitialValues | src/pages/ProfilePage.tsx:51-57 | the form takes the user's name, and null caregiver or phone become "" |
| Profile.EmptyToNull | src/pages/ProfilePage.tsx:132-133 | an empty value becomes an explicit null, never an absent field |
| Profile.UpdateBody | src/pages/ProfilePage.tsx:129-135 | the name as typed; an empty caregiver email or phone becomes null |
| Profile.NameOnlyEditEchoesUser | src/pages/ProfilePage.tsx:51-57 | after editing only the name, Save is enabled iff the name changed, and the body sends the new name, echoes a non-empty caregiver email or phone, and sends null for a missing or empty one |
| Profile.InitialFormValidIff | src/pages/ProfilePage.tsx:20-28 | the form as loaded passes the schema iff the stored name is non-empty and the stored caregiver email and phone are absent, empty or valid |
| Profile.SaveEnabled | src/pages/ProfilePage.tsx:168 | Save is enabled iff the form differs from its initial values |
| Profile.DisconnectRequest | src/pages/ProfilePage.tsx:231-234 | a disconnect is sent iff the target link has a non-empty doctor id, and carries that id |
| ApiClient.BearerValue | src/api/axios.ts:11-14 | a header value exists iff a non-empty token is stored, and it is "Bearer " followed by the token |
| ApiClient.RequestConfig.constructor | src/api/axios.ts:10 | the request's url and headers |
| ApiClient.RequestConfig.Authorize | src/api/axios.ts:10-15 | the Authorization header is set iff a non-empty token is stored; other headers are untouched |
| ApiClient.SurfacedMessage | src/api/axios.ts:24-27 | the body's `error`, else its `detail`, else the error's own message |
| ApiClient.RejectionFor | src/api/axios.ts:22-48 | every axios error is rejected with the surfaced message; other errors with a request and no response get "Cannot connect"; anything else is passed on |
| ApiClient.CannotConnectOnlyOffline | src/api/axios.ts:43-47 | "Cannot connect" is produced exactly for non-axios errors with a request and no response |
| ApiClient.IsAuthRequest | src/api/axios.ts:32-33 | a URL containing "/auth/login" or "/auth/register" |
| ApiClient.ForcesLogout | src/api/axios.ts:29-37 | a 401 answer to a request whose URL (or "" without one) is not an auth request |
| ApiClient.LogoutOnlyOn401 | src/api/axios.ts:29-37 | a forced logout needs a 401, and never happens for a login URL |
| ApiClient.OnResponseError | src/api/axios.ts:29-41 | a 401 off the auth URLs deletes the stored token and goes to /login; any other error leaves both as they were |
| Sidebar.Heads | src/components/layout/Sidebar.tsx:47 | at most one character per word |
| Sidebar.Initials | src/components/layout/Sidebar.tsx:46-48 | "?" for an absent or empty name; otherwise the upper-cased first letters of the first two non-empty words, at most 2 characters, none lower-case |
| Sidebar.SplitTwoWords | src/components/layout/Sidebar.tsx:47 | two space-free words joined by one space split back into those words |
| Sidebar.TwoWordInitials | src/components/layout/Sidebar.tsx:47 | a two-word name gives the two upper-cased first letters |
| Sidebar.HeadsOfEmptyWords | src/components/layout/Sidebar.tsx:47 | empty words contribute nothing |
| Sidebar.BlankNameGivesNoInitials | src/components/layout/Sidebar.tsx:47 | a name of spaces only gives empty initials, not "?" |
| Sidebar.NavFor | src/components/layout/Sidebar.tsx:45 | the doctor list iff the role is DOCTOR, otherwise the patient list |
| Sidebar.ShowSos | src/components/layout/Sidebar.tsx:120 | the SOS entry shows iff the role is PATIENT |
| Sidebar.IsActive | src/components/layout/Sidebar.tsx:80-82 | an entry is active on its own path, and, except /dashboard, on any path below it |
| Sidebar.ActiveIsBelow | src/components/layout/Sidebar.tsx:80-82 | an active entry's target is a prefix of the path |
| Sidebar.PathExamples | src/components/layout/Sidebar.tsx:80-82 | "/patients/7" activates /patients, "/patientsX" does not; /dashboard is active only on an exact match |
| Sidebar.PrefixOfPrefix | src/components/layout/Sidebar.tsx:80-82 | two prefixes of one path are prefixes of each other |
| Sidebar.AtMostOneActive | src/components/layout/Sidebar.tsx:80-82 | in a list where no target prefixes another, no path activates two entries |
| Sidebar.DistinctSecondCharsPrefixFree | src/components/layout/Sidebar.tsx:21-35 | targets that differ in their first letter do not prefix each other |
| Sidebar.PatientNavPrefixFree | src/components/layout/Sidebar.tsx:21-28 | no patient target prefixes another |
| Sidebar.DoctorNavPrefixFree | src/components/layout/Sidebar.tsx:30-35 | no doctor target prefixes another |
| Sidebar.OneHighlightedEntry | src/components/layout/Sidebar.tsx:45-82 | for every role and path, at most one entry is highlighted |
| Heatmap.ShadeRank | src/components/charts/MedicationHeatmap.tsx:27-34 | six ranks, grey lowest |
| Heatmap.ColorForPain | src/components/charts/MedicationHeatmap.tsx:27-34 | grey iff no log; pain ≤2, ≤4, ≤6, ≤8 and above get emerald-200, emerald-400, amber-300, orange-400 and red-500, each iff in its band |
| Heatmap.ColorMonotone | src/components/charts/MedicationHeatmap.tsx:29-33 | higher pain never gives a lower bucket, and any logged pain ranks above grey |
| Heatmap.Indexed | src/components/charts/MedicationHeatmap.tsx:21-25 | the day index: each log in turn sets its day's entry to its pain, so a later log overwrites an earlier one |
| Heatmap.IndexByDate | src/components/charts/MedicationHeatmap.tsx:21-25 | the `forEach` loop builds the day index `Indexed` |
| Heatmap.IndexedStep | src/components/charts/MedicationHeatmap.tsx:24 | one more log sets its own day's entry and leaves every other day's entry as it was |
| Heatmap.DayIndexedIff | src/components/charts/MedicationHeatmap.tsx:22-25 | a day is indexed iff some log falls on it |
| Heatmap.LastLogWins | src/components/charts/MedicationHeatmap.tsx:22-25 | an indexed day holds the pain of the last log in the list that falls on it |
| Heatmap.GridDays | src/components/charts/MedicationHeatmap.tsx:16-18 | exactly `days` consecutive days ending today |
| Heatmap.CellShade | src/components/charts/MedicationHeatmap.tsx:28 | a cell is grey iff its day has no log |
| Dashboard.TimeOfDay | src/pages/PatientDashboard.tsx:315-320 | morning before 12, afternoon from 12 to before 17, evening after |
| Dashboard.SurgeryDay | src/pages/PatientDashboard.tsx:75-77 | no day iff there is no user or no non-empty surgery date; otherwise the days since it |
| Dashboard.DoctorName | src/pages/PatientDashboard.tsx:148 | a link shows its doctor's name, or "?" when the doctor is missing |
| Dashboard.DoctorNames | src/pages/PatientDashboard.tsx:148 | one name per link, "?" for a missing doctor |
| Dashboard.DoctorsMetric | src/pages/PatientDashboard.tsx:147-149 | "Not linked" for no or no links, otherwise the names joined by ", " |
| Dashboard.DoctorsMetricExamples | src/pages/PatientDashboard.tsx:147-149 | one doctor shows its name alone, two show "a, b" |
| Dashboard.DoneCount | src/pages/PatientDashboard.tsx:225 | the done count never exceeds the task count |
| Dashboard.DoneCountExtremes | src/pages/PatientDashboard.tsx:225 | all done iff every task is COMPLETED; none done iff no task is |
| Dashboard.TaskClick | src/pages/PatientDashboard.tsx:244-247 | a COMPLETED task is undone, any other is completed with no note, always for that task's id |
| Dashboard.DoneCountIsUndoCount | src/pages/PatientDashboard.tsx:225-247 | the "n/m done" count equals the number of tasks whose circle undoes them (the ones shown checked) |
| Dashboard.TaskButtonsDisabled | src/pages/PatientDashboard.tsx:243 | the buttons are enabled iff neither mutation is pending |
| InputField.DashRuns | src/components/Input.tsx:12 | each whitespace run becomes one "-": no whitespace remains and the text never grows |
| InputField.DashRunsKeepsText | src/components/Input.tsx:12 | dashing keeps every other character in order: with white space and dashes removed, result and input are the same text |
| InputField.DashRunsNoSpace | src/components/Input.tsx:12 | text without whitespace is unchanged |
| InputField.DashRunsTwoWords | src/components/Input.tsx:12 | two words around a whitespace run of any length are joined by one "-" |
| InputField.DashRunsGapWord | src/components/Input.tsx:12 | a whitespace run before a word becomes one "-" |
| InputField.LeadingBlank | src/components/Input.tsx:12 | a leading whitespace run is counted whole |
| InputField.InputId | src/components/Input.tsx:12 | a non-empty id is used unchanged; with no id and no label there is none; otherwise the lower-cased label with runs of whitespace dashed, holding no whitespace |
| InputField.LowerFullName | src/components/Input.tsx:12 | lower-casing "Full Name" gives "full name" |
| InputField.LabelIdExample | src/components/Input.tsx:12 | "Full Name" gives "full-name" |
| InputField.ErrorShown | src/components/Input.tsx:40-42 | the error line shows iff a non-empty error is given |
| History.BadgeFor | src/pages/HistoryPage.tsx:70 | critical iff pain ≥7, monitor iff 4 ≤ pain < 7, normal iff pain < 4 |
| History.BadgeMonotone | src/pages/HistoryPage.tsx:70 | higher pain never gives a milder badge |
| History.ShownDate | src/pages/HistoryPage.tsx:67 | the log's date is formatted, or `created_at` when the date is null |
| History.TemperatureShown | src/pages/HistoryPage.tsx:81 | the temperature shows iff present and non-zero |
| History.TemperatureRendered | src/pages/HistoryPage.tsx:81 | nothing for a missing temperature, the bare text "0" for a temperature of 0, and the temperature span for any other value |
| History.TrendWindow.constructor | src/pages/HistoryPage.tsx:13 | the window starts at 14 days |
| History.TrendWindow.Highlighted | src/pages/HistoryPage.tsx:39 | a button is highlighted iff it is the current window |
| History.TrendWindow.Choose | src/pages/HistoryPage.tsx:40 | a click sets the window to that button's days |
| History.OneWindowHighlighted | src/pages/HistoryPage.tsx:35-44 | for a window among 7, 14 and 30, exactly one button is highlighted |

## Left out

- The socket connection itself (connect, room join and leave, notifications) is not part of this model. `Chat.ChatClient.OnSocketMessage` requires the event to belong to the open session, which is the filter the socket hook applies.
- Typing indicators (the emitted typing events and their 2.5-second timers) are not modelled: they are timers over socket events.
- Timers are actions, not time. Toast auto-dismiss is `RemoveToast`. The recorder's interval is `Recorder.Tick`. The 5-second clearing of the voice-fill notice is left out.
- Browser APIs are not modelled: SpeechRecognition, MediaRecorder, getUserMedia, FileReader and the clipboard. Their results are parameters (transcripts, chunk sizes, a granted flag). `localStorage` and `window.location` are fields of `Browser.LocalStorage` and `Browser.Location`.
- Date and locale formatting are function parameters: the message date label, the heatmap day key, the history date format and the days since surgery. `Heatmap.GridDays` numbers days as integers.
- The voice patterns are an oracle that returns the matched text and the number. The email check is the same: a predicate parameter. Only the phone rule is spelled out.
- React Query refetching and invalidation are not modelled. Pending flags are plain booleans that the handlers set and clear.
- Number parsing and display of reals (`parseFloat`, how `7.5` is printed) are not modelled; values are `real`.
- Whitespace and case are ASCII only: `trim`, `\s`, `toLowerCase` and `toUpperCase` use the ASCII set.
- `ApiClient.SurfacedMessage` treats a response's `detail` as a string or absent. A non-string `detail` (such as a validation list) is not modelled.
- The API modules, the presentational components and pages, and `src/components/Slider.tsx` (floating-point percentages) are outside this model.
- `Profile.InitialValues` takes a user: the form with no user loaded is not modelled.
- `Chat.ChatClient.OnSocketMessage` requires the event's session to be the open one, as above.
- `ChatVoice.Recorder.Start` requires that it is not already recording. The page shows the start button only then.
- `ChatVoice.Recorder.Stop` requires that no empty chunk was kept, which `OnData` guarantees.
- `Requests.CarePlanWizard.TypeCode` requires input of at most six characters, which is the input box's `maxLength`.
- `Requests.CarePlanWizard.SetMode` requires step 1, where the toggle is shown.
- `Requests.CarePlanWizard.Back` requires step 2 and `SendAnother` requires step 3, where those buttons are shown.
- `PatientDetail.TrendData` requires every log to carry a date, which the page relies on. It orders dates by code point rather than `localeCompare`; the two agree on ISO dates.
- `Heatmap.GridDays` requires at least one day.
- `Dashboard.TimeOfDay` requires an hour from 0 to 23, the range of `getHours`.
- `History.TemperatureShown` and `History.TemperatureRendered` do not model NaN, which React would also print as text.
- The chat page's toasts are not modelled: the `addToast` calls for failed sends (text, voice, image, AI) and failed requests, and the success toasts for a created, accepted or closed session. The request-chat modal's open and closed state is not modelled either. `OnSendFailed` models only the flags a failure clears.

/**
 * What the chat page derives from its state for display (src/pages/ChatPage.tsx): which
 * sessions are listed, which buttons and banners are offered, the thread title, how a message
 * bubble renders and how a thread is grouped by day.
 */
module ChatViews {
  import opened Wrappers
  import opened Text
  import opened Types
  import opened Seqs
  import opened Chat

  // ---------------------------------------------------------------- gating

  /** The compose bar is replaced by a notice on a closed session and on a request the viewer did not make. */
  function ComposeShown(s: ChatSession, viewerId: string): (r: bool)
    ensures r <==> s.status.Active? || (s.status.Requested? && s.patientId == viewerId)
  {
    if s.status.Closed? then false
    else if s.status == Requested && s.patientId != viewerId then false
    else true
  }

  /** Accept appears when the thread is REQUESTED and the page passed a handler, which it does only for a doctor on a REQUESTED session. */
  function AcceptShown(s: ChatSession, viewer: Option<Role>): (r: bool)
    ensures r <==> viewer == Some(Doctor) && s.status == Requested
  {
    var handlerPassed := viewer == Some(Doctor) && s.status == Requested;
    s.status == Requested && handlerPassed
  }

  /** Close appears when the thread is ACTIVE and the page passed a handler, which it does only for an ACTIVE session. */
  function CloseShown(s: ChatSession): (r: bool)
    ensures r <==> s.status == Active
  {
    var handlerPassed := s.status == Active;
    s.status == Active && handlerPassed
  }

  /** The "waiting for the doctor" banner: the viewer's own request, not yet accepted. */
  function WaitingBanner(s: ChatSession, viewerId: string): (r: bool)
    ensures r ==> ComposeShown(s, viewerId) && !CloseShown(s)
    ensures r <==> s.status == Requested && s.patientId == viewerId
  {
    s.status == Requested && s.patientId == viewerId
  }

  /** At most one of Accept and Close is offered, and a closed session offers neither nor a compose bar. */
  lemma SessionControlsExclusive(s: ChatSession, viewer: Option<Role>, viewerId: string)
    ensures !(AcceptShown(s, viewer) && CloseShown(s))
    ensures s.status == Closed ==> !AcceptShown(s, viewer) && !CloseShown(s) && !ComposeShown(s, viewerId)
    ensures AcceptShown(s, viewer) && viewerId != s.patientId ==> !ComposeShown(s, viewerId)
  {
  }

  /** The send button is enabled exactly when pressing it would dispatch something. */
  function SendEnabled(text: string, docPending: bool, aiPending: bool): (r: bool)
    ensures r <==> !IsBlank(text) && !docPending && !aiPending
  {
    !(Trim(text) == [] || docPending || aiPending)
  }

  lemma SendEnabledMatchesDecision(text: string, docPending: bool, aiPending: bool, listening: bool, s: ChatSession)
    ensures SendEnabled(text, docPending, aiPending) <==> !SendDecision(text, docPending, aiPending, listening, s).NoSend?
  {
  }

  // ---------------------------------------------------------------- lists

  /** A patient's list hides the AI session (it is reached from its own button); a doctor sees every session. */
  function VisibleSessions(sessions: seq<ChatSession>, viewer: Option<Role>): (r: seq<ChatSession>)
    ensures viewer == Some(Patient) ==> forall s :: s in r <==> s in sessions && !IsAiSession(s)
    ensures viewer == Some(Patient) ==> var ks := KeptPositions(sessions, (s: ChatSession) => !IsAiSession(s));
      |r| == |ks| && forall k :: 0 <= k < |r| ==> r[k] == sessions[ks[k]]
    ensures viewer != Some(Patient) ==> r == sessions
  {
    FilterAtKeptPositions(sessions, (s: ChatSession) => !IsAiSession(s));
    if viewer == Some(Patient) then Filter(sessions, (s: ChatSession) => !IsAiSession(s)) else sessions
  }

  /** Doctors get the REQUESTED sessions as pending requests, in list order; anyone else gets none. */
  function PendingRequests(sessions: seq<ChatSession>, viewer: Option<Role>): (r: seq<ChatSession>)
    ensures viewer == Some(Doctor) ==> forall s :: s in r <==> s in sessions && s.status == Requested
    ensures viewer == Some(Doctor) ==> var ks := KeptPositions(sessions, (s: ChatSession) => s.status == Requested);
      |r| == |ks| && forall k :: 0 <= k < |r| ==> r[k] == sessions[ks[k]]
    ensures viewer != Some(Doctor) ==> r == []
  {
    FilterAtKeptPositions(sessions, (s: ChatSession) => s.status == Requested);
    if viewer == Some(Doctor) then Filter(sessions, (s: ChatSession) => s.status == Requested) else []
  }

  /** The truthy doctor ids of the existing sessions. */
  function SessionDoctorIds(sessions: seq<ChatSession>): (r: set<string>)
    ensures forall id :: id in r <==> id != [] && exists s :: s in sessions && s.doctorId == Some(id)
  {
    set s | s in sessions && Truthy(s.doctorId) :: s.doctorId.value
  }

  /** The linked doctors a patient may still request a chat with: those with a doctor id and no session yet. */
  function RequestCandidates(doctors: seq<DoctorLink>, sessions: seq<ChatSession>): (r: seq<DoctorLink>)
    ensures |r| <= |doctors|
    ensures forall d :: d in r <==>
      d in doctors && d.doctorId != [] && forall s :: s in sessions ==> s.doctorId != Some(d.doctorId)
    ensures var ks := KeptPositions(doctors, (d: DoctorLink) => d.doctorId != [] && d.doctorId !in SessionDoctorIds(sessions));
      |r| == |ks| && forall k :: 0 <= k < |r| ==> r[k] == doctors[ks[k]]
  {
    FilterAtKeptPositions(doctors, (d: DoctorLink) => d.doctorId != [] && d.doctorId !in SessionDoctorIds(sessions));
    Filter(doctors, (d: DoctorLink) => d.doctorId != [] && d.doctorId !in SessionDoctorIds(sessions))
  }

  /** Requesting a candidate and then refreshing the list removes that doctor from the candidates. */
  lemma RequestedDoctorLeavesCandidates(doctors: seq<DoctorLink>, sessions: seq<ChatSession>, s: ChatSession, d: DoctorLink)
    requires s.doctorId == Some(d.doctorId)
    ensures d !in RequestCandidates(doctors, sessions + [s])
  {
    assert s in sessions + [s];
  }

  // ---------------------------------------------------------------- thread display

  /** The title shown for a session: a doctor sees the patient's name when the server sent one. */
  function ThreadTitle(s: ChatSession, viewer: Option<Role>): (r: string)
    ensures r == s.title || Some(r) == s.patientName
    ensures IsAiSession(s) || viewer != Some(Doctor) || s.patientName.None? ==> r == s.title
    ensures !IsAiSession(s) && viewer == Some(Doctor) && s.patientName.Some? ==> r == s.patientName.value
  {
    if IsAiSession(s) then s.title
    else if viewer == Some(Doctor) then s.patientName.GetOr(s.title)
    else s.title
  }

  /** What a message bubble shows. */
  datatype Bubble =
    | AudioBubble(audioUrl: string, caption: Option<string>)
    | ImageBubble(imageUrl: string)
    | TextBubble(content: string)

  /** Audio wins over an image, an image over text; an audio bubble captions itself with any non-empty text. */
  function BubbleFor(m: ChatMessage): (r: Bubble)
    ensures r.AudioBubble? <==> Truthy(m.audioUrl)
    ensures r.ImageBubble? <==> !Truthy(m.audioUrl) && Truthy(m.imageUrl)
    ensures r.AudioBubble? ==> Some(r.audioUrl) == m.audioUrl && (r.caption.Some? <==> m.content != [])
    ensures r.AudioBubble? && r.caption.Some? ==> r.caption.value == m.content
    ensures r.ImageBubble? ==> Some(r.imageUrl) == m.imageUrl
    ensures r.TextBubble? ==> r.content == m.content
  {
    if Truthy(m.audioUrl) then AudioBubble(m.audioUrl.value, if m.content != [] then Some(m.content) else None)
    else if Truthy(m.imageUrl) then ImageBubble(m.imageUrl.value)
    else TextBubble(m.content)
  }

  // ---------------------------------------------------------------- grouping by day

  datatype DateGroup = DateGroup(date: string, msgs: seq<ChatMessage>)

  function Flatten(gs: seq<DateGroup>): seq<ChatMessage> {
    if gs == [] then [] else Flatten(gs[..|gs| - 1]) + gs[|gs| - 1].msgs
  }

  /**
   * Groups are non-empty, every message carries its group's day label, and neighbouring groups
   * have different labels.
   */
  predicate WellGrouped(gs: seq<DateGroup>, dayOf: string -> string) {
    (forall i :: 0 <= i < |gs| ==> gs[i].msgs != [])
    && (forall i, k :: 0 <= i < |gs| && 0 <= k < |gs[i].msgs| ==> dayOf(gs[i].msgs[k].createdAt) == gs[i].date)
    && (forall i :: 0 <= i < |gs| - 1 ==> gs[i].date != gs[i + 1].date)
  }

  /** The last group carries the label `d`. */
  predicate EndsWithDay(gs: seq<DateGroup>, d: string) {
    gs != [] && gs[|gs| - 1].date == d
  }

  /** Opening a new group for a message whose label differs from the last group's. */
  lemma OpenGroup(gs: seq<DateGroup>, m: ChatMessage, dayOf: string -> string)
    requires WellGrouped(gs, dayOf)
    requires !EndsWithDay(gs, dayOf(m.createdAt))
    ensures WellGrouped(gs + [DateGroup(dayOf(m.createdAt), [m])], dayOf)
    ensures Flatten(gs + [DateGroup(dayOf(m.createdAt), [m])]) == Flatten(gs) + [m]
  {
    var g := gs + [DateGroup(dayOf(m.createdAt), [m])];
    assert g[..|g| - 1] == gs;
  }

  /** Adding a message with the last group's label to that group. */
  lemma ExtendGroup(gs: seq<DateGroup>, m: ChatMessage, dayOf: string -> string)
    requires WellGrouped(gs, dayOf)
    requires EndsWithDay(gs, dayOf(m.createdAt))
    ensures var last := gs[|gs| - 1];
      var g := gs[..|gs| - 1] + [DateGroup(last.date, last.msgs + [m])];
      WellGrouped(g, dayOf) && Flatten(g) == Flatten(gs) + [m] && |g| == |gs|
  {
    var init := gs[..|gs| - 1];
    var last := gs[|gs| - 1];
    var g := init + [DateGroup(last.date, last.msgs + [m])];
    assert g[..|g| - 1] == init;
    assert gs[..|gs| - 1] == init;
    forall i, k | 0 <= i < |g| && 0 <= k < |g[i].msgs|
      ensures dayOf(g[i].msgs[k].createdAt) == g[i].date
    {
      if i < |g| - 1 {
        assert g[i] == gs[i];
      }
    }
  }

  /**
   * Splits a thread into runs of consecutive messages with the same day label, in order.
   * `dayOf` is the page's date formatter (today, yesterday, or a date), which depends on the clock.
   */
  method GroupByDate(msgs: seq<ChatMessage>, dayOf: string -> string) returns (grouped: seq<DateGroup>)
    ensures Flatten(grouped) == msgs
    ensures WellGrouped(grouped, dayOf)
    ensures |grouped| <= |msgs|
  {
    grouped := [];
    for i := 0 to |msgs|
      invariant Flatten(grouped) == msgs[..i]
      invariant WellGrouped(grouped, dayOf)
      invariant |grouped| <= i
    {
      var m := msgs[i];
      var d := dayOf(m.createdAt);
      assert msgs[..i + 1] == msgs[..i] + [m];
      if !EndsWithDay(grouped, d) {
        OpenGroup(grouped, m, dayOf);
        grouped := grouped + [DateGroup(d, [m])];
      } else {
        ExtendGroup(grouped, m, dayOf);
        var last := grouped[|grouped| - 1];
        grouped := grouped[..|grouped| - 1] + [DateGroup(last.date, last.msgs + [m])];
      }
    }
  }
}

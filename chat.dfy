/**
 * The chat page's client state (src/pages/ChatPage.tsx): the session list, the per-session
 * message cache, the selected session, the compose box and the pending flags, together with
 * the success handlers that merge server results into that state.
 *
 * Network results are parameters. Query invalidation (a refetch whose outcome is not
 * visible to the client) leaves the modelled state unchanged.
 */
module Chat {
  import opened Wrappers
  import opened Text
  import opened Types

  /** `!session.doctor_id`: a session with no doctor is the AI assistant's. */
  predicate IsAiSession(s: ChatSession) {
    !Truthy(s.doctorId)
  }

  // ---------------------------------------------------------------- message lists

  predicate HasMessage(msgs: seq<ChatMessage>, id: string) {
    exists i :: 0 <= i < |msgs| && msgs[i].id == id
  }

  predicate UniqueIds(msgs: seq<ChatMessage>) {
    forall i, j :: 0 <= i < j < |msgs| ==> msgs[i].id != msgs[j].id
  }

  /** What a socket delivery leaves in the cache: the message is appended unless its id is already there. */
  function DeliverOnce(msgs: seq<ChatMessage>, m: ChatMessage): seq<ChatMessage> {
    if HasMessage(msgs, m.id) then msgs else msgs + [m]
  }

  /** Socket delivery never creates a second entry for an id. */
  lemma DeliverOnceKeepsIdsUnique(msgs: seq<ChatMessage>, m: ChatMessage)
    requires UniqueIds(msgs)
    ensures UniqueIds(DeliverOnce(msgs, m))
    ensures HasMessage(DeliverOnce(msgs, m), m.id)
  {
    if !HasMessage(msgs, m.id) {
      var r := msgs + [m];
      assert r[|msgs|] == m;
      forall i, j | 0 <= i < j < |r| ensures r[i].id != r[j].id {
        if j == |msgs| {
          assert r[i] == msgs[i];
        }
      }
    } else {
      var k :| 0 <= k < |msgs| && msgs[k].id == m.id;
    }
  }

  /** A repeated socket delivery of the same message changes nothing. */
  lemma DeliverOnceIdempotent(msgs: seq<ChatMessage>, m: ChatMessage)
    ensures DeliverOnce(DeliverOnce(msgs, m), m) == DeliverOnce(msgs, m)
  {
    if !HasMessage(msgs, m.id) {
      assert (msgs + [m])[|msgs|] == m;
    }
  }

  /** Every message delivered over the socket in turn, as a sequence of events. */
  function DeliverAll(msgs: seq<ChatMessage>, arrivals: seq<ChatMessage>): seq<ChatMessage>
    decreases |arrivals|
  {
    if arrivals == [] then msgs
    else DeliverAll(DeliverOnce(msgs, arrivals[0]), arrivals[1..])
  }

  lemma DeliverOnceHas(msgs: seq<ChatMessage>, m: ChatMessage, id: string)
    ensures HasMessage(DeliverOnce(msgs, m), id) <==> HasMessage(msgs, id) || id == m.id
    ensures |msgs| <= |DeliverOnce(msgs, m)| && DeliverOnce(msgs, m)[..|msgs|] == msgs
  {
    var r := msgs + [m];
    if !HasMessage(msgs, m.id) {
      assert r[|msgs|] == m;
      if HasMessage(r, id) && id != m.id {
        var k :| 0 <= k < |r| && r[k].id == id;
        assert msgs[k].id == id;
      }
      if HasMessage(msgs, id) {
        var k :| 0 <= k < |msgs| && msgs[k].id == id;
        assert r[k].id == id;
      }
    } else {
      var k :| 0 <= k < |msgs| && msgs[k].id == m.id;
    }
  }

  lemma HasMessageUncons(arrivals: seq<ChatMessage>, id: string)
    requires arrivals != []
    ensures HasMessage(arrivals, id) <==> arrivals[0].id == id || HasMessage(arrivals[1..], id)
  {
    if HasMessage(arrivals[1..], id) {
      var k :| 0 <= k < |arrivals[1..]| && arrivals[1..][k].id == id;
      assert arrivals[k + 1].id == id;
    }
    if HasMessage(arrivals, id) && arrivals[0].id != id {
      var k :| 0 <= k < |arrivals| && arrivals[k].id == id;
      assert arrivals[1..][k - 1].id == id;
    }
  }

  /**
   * Whatever ids repeat among the arrivals, the cache ends with exactly one entry per id:
   * the ids are unique, the earlier entries keep their places, and an id is present iff it was
   * cached before or arrived.
   */
  lemma {:induction false} DeliverAllUnique(msgs: seq<ChatMessage>, arrivals: seq<ChatMessage>)
    requires UniqueIds(msgs)
    ensures UniqueIds(DeliverAll(msgs, arrivals))
    ensures |msgs| <= |DeliverAll(msgs, arrivals)| && DeliverAll(msgs, arrivals)[..|msgs|] == msgs
    ensures forall id :: HasMessage(DeliverAll(msgs, arrivals), id) <==>
      HasMessage(msgs, id) || HasMessage(arrivals, id)
    decreases |arrivals|
  {
    if arrivals != [] {
      var m := arrivals[0];
      var next := DeliverOnce(msgs, m);
      DeliverOnceKeepsIdsUnique(msgs, m);
      DeliverAllUnique(next, arrivals[1..]);
      var r := DeliverAll(next, arrivals[1..]);
      assert r == DeliverAll(msgs, arrivals);
      DeliverOnceHas(msgs, m, m.id);
      assert r[..|msgs|] == next[..|msgs|];
      forall id ensures HasMessage(r, id) <==> HasMessage(msgs, id) || HasMessage(arrivals, id) {
        DeliverOnceHas(msgs, m, id);
        HasMessageUncons(arrivals, id);
      }
    }
  }

  /**
   * A REST send followed by the socket echo of the same message leaves one copy: the echo
   * is dropped.
   */
  lemma EchoAfterRestIsDropped(msgs: seq<ChatMessage>, m: ChatMessage)
    ensures DeliverOnce(msgs + [m], m) == msgs + [m]
  {
    assert (msgs + [m])[|msgs|] == m;
  }

  /**
   * The REST success handlers append without looking at ids, so when the socket echo
   * arrives first the sender's cache ends with two entries for one message.
   */
  lemma RestAfterEchoDuplicates(msgs: seq<ChatMessage>, m: ChatMessage)
    requires UniqueIds(msgs) && !HasMessage(msgs, m.id)
    ensures !UniqueIds(DeliverOnce(msgs, m) + [m])
  {
    var r := DeliverOnce(msgs, m) + [m];
    assert r[|msgs|] == m && r[|msgs| + 1] == m;
  }

  // ---------------------------------------------------------------- session lists

  predicate HasSession(sessions: seq<ChatSession>, id: string) {
    exists i :: 0 <= i < |sessions| && sessions[i].id == id
  }

  /** What the AI-session success handler leaves: the session is put first unless its id is already listed. */
  function InsertSessionOnce(sessions: seq<ChatSession>, s: ChatSession): seq<ChatSession> {
    if HasSession(sessions, s.id) then sessions else [s] + sessions
  }

  /** Insertion is a no-op on a known id and otherwise shifts every session one place down. */
  lemma InsertSessionOnceShape(sessions: seq<ChatSession>, s: ChatSession)
    ensures HasSession(sessions, s.id) ==> InsertSessionOnce(sessions, s) == sessions
    ensures !HasSession(sessions, s.id) ==>
      var r := InsertSessionOnce(sessions, s);
      |r| == |sessions| + 1 && r[0] == s && r[1..] == sessions
    ensures HasSession(InsertSessionOnce(sessions, s), s.id)
    ensures InsertSessionOnce(InsertSessionOnce(sessions, s), s) == InsertSessionOnce(sessions, s)
  {
    if !HasSession(sessions, s.id) {
      assert ([s] + sessions)[0] == s;
    } else {
      var k :| 0 <= k < |sessions| && sessions[k].id == s.id;
    }
  }

  /** `sessions.find((s) => s.id === id)`. */
  function FindSession(sessions: seq<ChatSession>, id: Option<string>): (r: Option<ChatSession>)
    ensures r.Some? ==> id.Some? && r.value in sessions && r.value.id == id.value
    ensures r.None? ==> id.None? || !HasSession(sessions, id.value)
  {
    if id.None? || sessions == [] then None
    else if sessions[0].id == id.value then Some(sessions[0])
    else
      FindSession(sessions[1..], id)
  }

  /** The first session that has no doctor, as the AI quick button looks it up. */
  function FindAiSession(sessions: seq<ChatSession>): (r: Option<ChatSession>)
    ensures r.Some? ==> r.value in sessions && IsAiSession(r.value)
    ensures r.None? ==> forall s :: s in sessions ==> !IsAiSession(s)
    ensures r.Some? ==> exists i :: (0 <= i < |sessions| && sessions[i] == r.value
      && forall j :: 0 <= j < i ==> !IsAiSession(sessions[j]))
  {
    if sessions == [] then None
    else if IsAiSession(sessions[0]) then Some(sessions[0])
    else
      var rest := FindAiSession(sessions[1..]);
      assert rest.Some? ==> exists i :: (0 < i < |sessions| && sessions[i] == rest.value
        && forall j :: 0 <= j < i ==> !IsAiSession(sessions[j])) by {
        if rest.Some? {
          var i :| 0 <= i < |sessions| - 1 && sessions[1..][i] == rest.value
            && forall j :: 0 <= j < i ==> !IsAiSession(sessions[1..][j]);
          assert forall j :: 0 <= j < i + 1 ==> !IsAiSession(sessions[j]) by {
            forall j | 0 <= j < i + 1 ensures !IsAiSession(sessions[j]) {
              if j > 0 {
                assert sessions[j] == sessions[1..][j - 1];
              }
            }
          }
        }
      }
      rest
  }

  // ---------------------------------------------------------------- compose box

  /** What `handleSend` dispatches. `isVoice` is the dictation flag as it was when Send was pressed. */
  datatype SendRoute = NoSend | ToAi(content: string, isVoice: bool) | ToDoctor(content: string, isVoice: bool)

  /**
   * The send guard and routing: nothing is sent when the trimmed text is empty or a text or
   * AI send is still pending; otherwise the trimmed text goes to the AI endpoint exactly when
   * the session has no doctor.
   */
  function SendDecision(text: string, docPending: bool, aiPending: bool, listening: bool, session: ChatSession): (r: SendRoute)
    ensures r.NoSend? <==> IsBlank(text) || docPending || aiPending
    ensures !r.NoSend? ==> r.content == Trim(text) && r.content != [] && r.isVoice == listening
    ensures !r.NoSend? ==> (r.ToAi? <==> IsAiSession(session))
  {
    var content := Trim(text);
    if content == [] || docPending || aiPending then NoSend
    else if IsAiSession(session) then ToAi(content, listening)
    else ToDoctor(content, listening)
  }

  /** A dictated final result joins the compose text with one space, or starts it. */
  function MergeDictation(prev: string, t: string): (r: string)
    ensures prev == [] ==> r == t
    ensures prev != [] ==> |r| == |prev| + 1 + |t| && r[..|prev|] == prev && r[|prev|] == ' ' && r[|prev| + 1..] == t
  {
    if prev != [] then prev + " " + t else t
  }

  class ChatClient {
    /** The `["chat-sessions"]` query data. */
    var sessions: seq<ChatSession>
    /** The `["chat-messages", id]` query data, by session id; a missing key reads as `[]`. */
    var cache: map<string, seq<ChatMessage>>
    var selectedId: Option<string>
    var text: string
    var interimText: string
    /** Whether dictation is running. */
    var listening: bool
    var aiTyping: bool
    var docSendPending: bool
    var aiSendPending: bool
    /** The picked image waiting to be sent, if any. */
    var imageDraft: Option<string>

    constructor ()
      ensures sessions == [] && cache == map[] && selectedId == None
      ensures text == [] && interimText == [] && !listening && !aiTyping
      ensures !docSendPending && !aiSendPending && imageDraft == None
    {
      sessions := [];
      cache := map[];
      selectedId := None;
      text := [];
      interimText := [];
      listening := false;
      aiTyping := false;
      docSendPending := false;
      aiSendPending := false;
      imageDraft := None;
    }

    function Messages(sid: string): seq<ChatMessage>
      reads this
    {
      if sid in cache then cache[sid] else []
    }

    /** The compose-box part of the state, for stating that a handler leaves it alone. */
    function Compose(): (string, string, bool, bool, bool, bool, Option<string>)
      reads this
    {
      (text, interimText, listening, aiTyping, docSendPending, aiSendPending, imageDraft)
    }

    /** A socket `new_message` for the open session: appended unless its id is already cached. */
    method OnSocketMessage(openId: string, ev: NewMessageEvent)
      requires ev.sessionId == openId
      modifies this
      ensures cache == old(cache)[openId := DeliverOnce(old(Messages(openId)), ev.message)]
      ensures sessions == old(sessions) && selectedId == old(selectedId) && Compose() == old(Compose())
    {
      var current := Messages(openId);
      var seen := FindMessageId(current, ev.message.id);
      if seen {
        cache := cache[openId := current];
      } else {
        cache := cache[openId := current + [ev.message]];
      }
    }

    /** The shared tail of the REST send handlers: the returned message, if any, is appended with no id check. */
    method AppendReturned(sid: string, returned: Option<ChatMessage>)
      modifies this`cache
      ensures returned.None? ==> cache == old(cache)
      ensures returned.Some? ==> cache == old(cache)[sid := old(Messages(sid)) + [returned.value]]
    {
      if returned.Some? {
        cache := cache[sid := Messages(sid) + [returned.value]];
      }
    }

    /** Text send to a doctor session succeeded. */
    method OnTextSent(sid: string, res: ApiResponse<ChatMessage>)
      modifies this
      ensures res.data.None? ==> cache == old(cache)
      ensures res.data.Some? ==> cache == old(cache)[sid := old(Messages(sid)) + [res.data.value]]
      ensures !docSendPending
      ensures sessions == old(sessions) && selectedId == old(selectedId)
      ensures text == old(text) && interimText == old(interimText) && listening == old(listening)
      ensures aiTyping == old(aiTyping) && aiSendPending == old(aiSendPending) && imageDraft == old(imageDraft)
    {
      AppendReturned(sid, res.data);
      docSendPending := false;
    }

    /** Recorded voice message upload succeeded. */
    method OnVoiceSent(sid: string, res: ApiResponse<ChatMessage>)
      modifies this
      ensures res.data.None? ==> cache == old(cache)
      ensures res.data.Some? ==> cache == old(cache)[sid := old(Messages(sid)) + [res.data.value]]
      ensures sessions == old(sessions) && selectedId == old(selectedId) && Compose() == old(Compose())
    {
      AppendReturned(sid, res.data);
    }

    /** Image upload succeeded: the message is appended and the draft preview is dropped. */
    method OnImageSent(sid: string, res: ApiResponse<ChatMessage>)
      modifies this
      ensures res.data.None? ==> cache == old(cache)
      ensures res.data.Some? ==> cache == old(cache)[sid := old(Messages(sid)) + [res.data.value]]
      ensures imageDraft == None
      ensures sessions == old(sessions) && selectedId == old(selectedId)
      ensures text == old(text) && interimText == old(interimText) && listening == old(listening)
      ensures aiTyping == old(aiTyping) && docSendPending == old(docSendPending) && aiSendPending == old(aiSendPending)
    {
      AppendReturned(sid, res.data);
      imageDraft := None;
    }

    /** The AI exchange succeeded: the user's message and then the reply are appended, in that order. */
    method OnAiReply(sid: string, res: ApiResponse<AiExchange>)
      modifies this
      ensures res.data.None? ==> cache == old(cache)
      ensures res.data.Some? ==>
        cache == old(cache)[sid := old(Messages(sid)) + [res.data.value.userMessage, res.data.value.aiReply]]
      ensures !aiTyping && !aiSendPending
      ensures sessions == old(sessions) && selectedId == old(selectedId)
      ensures text == old(text) && interimText == old(interimText) && listening == old(listening)
      ensures docSendPending == old(docSendPending) && imageDraft == old(imageDraft)
    {
      aiTyping := false;
      aiSendPending := false;
      if res.data.Some? {
        var d := res.data.value;
        cache := cache[sid := Messages(sid) + [d.userMessage, d.aiReply]];
      }
    }

    /** A text or AI send failed: only the pending flags and the AI typing indicator are reset. */
    method OnSendFailed(toAi: bool)
      modifies this
      ensures toAi ==> !aiSendPending && !aiTyping && docSendPending == old(docSendPending)
      ensures !toAi ==> !docSendPending && aiSendPending == old(aiSendPending) && aiTyping == old(aiTyping)
      ensures cache == old(cache) && sessions == old(sessions) && selectedId == old(selectedId)
      ensures text == old(text) && interimText == old(interimText) && listening == old(listening)
      ensures imageDraft == old(imageDraft)
    {
      if toAi {
        aiSendPending := false;
        aiTyping := false;
      } else {
        docSendPending := false;
      }
    }

    /**
     * The AI-session fetch succeeded: the session is put first unless already listed, and it
     * becomes the selection only when nothing was selected.
     */
    method OnAiSession(res: ApiResponse<ChatSession>)
      modifies this
      ensures res.data.None? ==> sessions == old(sessions) && selectedId == old(selectedId)
      ensures res.data.Some? ==> sessions == InsertSessionOnce(old(sessions), res.data.value)
      ensures res.data.Some? ==>
        selectedId == if Truthy(old(selectedId)) then old(selectedId) else Some(res.data.value.id)
      ensures cache == old(cache) && Compose() == old(Compose())
    {
      if res.data.Some? {
        var s := res.data.value;
        var known := FindSessionId(sessions, s.id);
        if !known {
          sessions := [s] + sessions;
        }
        if !Truthy(selectedId) {
          selectedId := Some(s.id);
        }
      }
    }

    /** A doctor-chat request succeeded: the new session is selected (the list is refetched). */
    method OnChatRequested(res: ApiResponse<ChatSession>)
      modifies this`selectedId
      ensures selectedId == if res.data.Some? then Some(res.data.value.id) else old(selectedId)
    {
      if res.data.Some? {
        selectedId := Some(res.data.value.id);
      }
    }

    method Select(id: string)
      modifies this`selectedId
      ensures selectedId == Some(id)
    {
      selectedId := Some(id);
    }

    /**
     * The AI quick button: select the first session without a doctor, or ask for one to be
     * created when there is none.
     */
    method OpenAiSession() returns (requestCreation: bool)
      modifies this`selectedId
      ensures requestCreation <==> FindAiSession(old(sessions)).None?
      ensures !requestCreation ==> selectedId == Some(FindAiSession(sessions).value.id)
      ensures requestCreation ==> selectedId == old(selectedId)
    {
      var ai := FindAiSession(sessions);
      requestCreation := ai.None?;
      if ai.Some? {
        selectedId := Some(ai.value.id);
      }
    }

    /**
     * `handleSend`: when the guard passes, the compose text and the interim text are cleared
     * and dictation stops BEFORE the request is dispatched, and the matching pending flag is
     * raised; when it fails nothing changes.
     */
    method HandleSend(session: ChatSession) returns (route: SendRoute)
      modifies this
      ensures route == SendDecision(old(text), old(docSendPending), old(aiSendPending), old(listening), session)
      ensures route.NoSend? ==> Compose() == old(Compose())
      ensures !route.NoSend? ==> text == [] && interimText == [] && !listening
      ensures route.ToAi? ==> aiSendPending && aiTyping && docSendPending == old(docSendPending)
      ensures route.ToDoctor? ==> docSendPending && aiSendPending == old(aiSendPending) && aiTyping == old(aiTyping)
      ensures !route.NoSend? ==> imageDraft == old(imageDraft)
      ensures cache == old(cache) && sessions == old(sessions) && selectedId == old(selectedId)
    {
      route := SendDecision(text, docSendPending, aiSendPending, listening, session);
      if !route.NoSend? {
        text := [];
        interimText := [];
        listening := false;
        if route.ToAi? {
          aiSendPending := true;
          aiTyping := true;
        } else {
          docSendPending := true;
        }
      }
    }

    /** The microphone button: stop dictation when it runs, else start it when the browser supports it. */
    method ToggleDictation(supported: bool)
      modifies this`listening
      ensures listening <==> !old(listening) && supported
    {
      if listening {
        listening := false;
      } else if supported {
        listening := true;
      }
    }

    /** The recogniser ended or failed. */
    method OnDictationEnded()
      modifies this`listening
      ensures !listening
    {
      listening := false;
    }

    /** A dictation result: a final one is merged into the text, an interim one only previewed. */
    method OnTranscript(t: string, isFinal: bool)
      modifies this`text, this`interimText
      ensures isFinal ==> text == MergeDictation(old(text), t) && interimText == []
      ensures !isFinal ==> text == old(text) && interimText == t
    {
      if isFinal {
        text := MergeDictation(text, t);
        interimText := [];
      } else {
        interimText := t;
      }
    }
  }

  /** `msgs.some((m) => m.id === id)`. */
  method FindMessageId(msgs: seq<ChatMessage>, id: string) returns (found: bool)
    ensures found <==> HasMessage(msgs, id)
  {
    found := false;
    var i := 0;
    while i < |msgs| && !found
      invariant 0 <= i <= |msgs|
      invariant found <==> exists k :: 0 <= k < i && msgs[k].id == id
    {
      found := msgs[i].id == id;
      i := i + 1;
    }
  }

  /** `sessions.some((x) => x.id === id)`. */
  method FindSessionId(sessions: seq<ChatSession>, id: string) returns (found: bool)
    ensures found <==> HasSession(sessions, id)
  {
    found := false;
    var i := 0;
    while i < |sessions| && !found
      invariant 0 <= i <= |sessions|
      invariant found <==> exists k :: 0 <= k < i && sessions[k].id == id
    {
      found := sessions[i].id == id;
      i := i + 1;
    }
  }
}

/**
 * The chat page's two voice hooks (src/pages/ChatPage.tsx): speech-recognition results
 * collected into one callback, and the audio recorder with its running duration and
 * two-minute cap. The browser speech and media APIs are outside the model; their events
 * arrive as method calls.
 */
module ChatVoice {
  import opened Wrappers
  import opened Text

  /** One speech-recognition result: its best transcript and whether it is final. */
  datatype SpeechResult = SpeechResult(transcript: string, isFinal: bool)

  /** The concatenated transcripts of the results whose finality is `final`. */
  function Joined(results: seq<SpeechResult>, final: bool): string {
    if results == [] then []
    else
      var last := results[|results| - 1];
      Joined(results[..|results| - 1], final) + if last.isFinal == final then last.transcript else []
  }

  /** The joined text is empty exactly when every result of that finality has an empty transcript. */
  lemma {:induction false} JoinedEmptyIff(results: seq<SpeechResult>, final: bool)
    ensures Joined(results, final) == [] <==>
      forall i :: 0 <= i < |results| && results[i].isFinal == final ==> results[i].transcript == []
  {
    if results != [] {
      var init := results[..|results| - 1];
      JoinedEmptyIff(init, final);
      forall i | 0 <= i < |init| ensures init[i] == results[i] { }
    }
  }

  /**
   * `onresult`: the results from `resultIndex` on are split into final and interim text;
   * the callback gets the final text if there is any, else the interim text if there is any,
   * else nothing.
   */
  method OnSpeechResult(results: seq<SpeechResult>, resultIndex: nat) returns (callback: Option<(string, bool)>)
    requires resultIndex <= |results|
    ensures var fin := Joined(results[resultIndex..], true);
      var interim := Joined(results[resultIndex..], false);
      callback == if fin != [] then Some((fin, true)) else if interim != [] then Some((interim, false)) else None
  {
    var interim := [];
    var fin := [];
    for i := resultIndex to |results|
      invariant fin == Joined(results[resultIndex..i], true)
      invariant interim == Joined(results[resultIndex..i], false)
    {
      var t := results[i].transcript;
      assert results[resultIndex..i + 1][..i - resultIndex] == results[resultIndex..i];
      if results[i].isFinal {
        fin := fin + t;
      } else {
        interim := interim + t;
      }
    }
    assert results[resultIndex..|results|] == results[resultIndex..];
    if fin != [] {
      callback := Some((fin, true));
    } else if interim != [] {
      callback := Some((interim, false));
    } else {
      callback := None;
    }
  }

  /** The recorder stops itself once this many seconds have been counted. */
  const MaxRecordingSeconds: nat := 120

  /** The recorder hook. Audio chunks are represented by their byte sizes. */
  class Recorder {
    var recording: bool
    /** Seconds counted by the interval timer since the last start. */
    var duration: nat
    /** Chunks collected since the last start. */
    var chunks: seq<nat>

    /** A running recorder has always counted fewer than the cap, and no chunk is empty. */
    predicate Valid()
      reads this
    {
      (recording ==> duration < MaxRecordingSeconds) && NoEmptyChunk()
    }

    predicate NoEmptyChunk()
      reads this
    {
      forall i :: 0 <= i < |chunks| ==> chunks[i] > 0
    }

    constructor ()
      ensures Valid() && !recording && duration == 0 && chunks == []
    {
      recording := false;
      duration := 0;
      chunks := [];
    }

    /**
     * `start`: when the microphone is granted, the chunks and the counter are reset and
     * recording begins; when it is refused nothing changes.
     */
    method Start(granted: bool)
      requires Valid() && !recording
      modifies this
      ensures Valid()
      ensures granted ==> recording && duration == 0 && chunks == []
      ensures !granted ==> recording == old(recording) && duration == old(duration) && chunks == old(chunks)
    {
      if granted {
        chunks := [];
        recording := true;
        duration := 0;
      }
    }

    /** `ondataavailable`: only non-empty chunks are kept. */
    method OnData(size: nat)
      requires Valid()
      modifies this`chunks
      ensures Valid()
      ensures chunks == if size > 0 then old(chunks) + [size] else old(chunks)
    {
      if size > 0 {
        chunks := chunks + [size];
      }
    }

    /**
     * `stop`: recording ends and the recorder's stop event hands every collected chunk, in
     * order, to the caller as one blob; a recorder that was not running delivers nothing.
     */
    method Stop() returns (blob: Option<seq<nat>>)
      requires NoEmptyChunk()
      modifies this`recording
      ensures Valid() && !recording
      ensures blob == if old(recording) then Some(chunks) else None
    {
      blob := if recording then Some(chunks) else None;
      recording := false;
    }

    /** One tick of the one-second interval, followed by the auto-stop check. */
    method Tick() returns (blob: Option<seq<nat>>)
      requires Valid() && recording
      modifies this
      ensures Valid()
      ensures duration == old(duration) + 1 && duration <= MaxRecordingSeconds
      ensures recording <==> duration < MaxRecordingSeconds
      ensures blob == if recording then None else Some(chunks)
      ensures chunks == old(chunks)
    {
      duration := duration + 1;
      blob := None;
      if duration >= MaxRecordingSeconds {
        blob := Stop();
      }
    }
  }

  /** `String(n).padStart(2, "0")` for a number below one hundred. */
  function TwoDigits(n: nat): (r: string)
    requires n < 100
    ensures |r| == 2 && AllDigits(r)
  {
    var digits := NatToString(n);
    assert |digits| <= 2 by {
      if n >= 10 {
        assert digits == NatToString(n / 10) + [DigitChar(n % 10)];
      }
    }
    PadStart(digits, 2, '0')
  }

  /** The two padded digits read back as the number. */
  lemma TwoDigitsReadsBack(n: nat)
    requires n < 100
    ensures ParseDigits(TwoDigits(n)) == n
  {
    var digits := NatToString(n);
    ParseNatToString(n);
    if |digits| < 2 {
      assert TwoDigits(n) == ['0'] + digits;
      ParseDigitsLeadingZero(digits);
    } else {
      assert TwoDigits(n) == digits;
    }
  }

  /** Where the pieces of `m + ":" + ss` sit when the seconds take two characters. */
  lemma ColonLayout(m: string, ss: string)
    requires |ss| == 2
    ensures var r := m + ":" + ss;
      |r| == |m| + 3 && r[..|r| - 3] == m && r[|r| - 3] == ':' && r[|r| - 2..] == ss
  {
    var r := m + ":" + ss;
    assert r[..|m|] == m;
    assert r[|m| + 1..] == ss;
  }

  /** `m:ss` as the recording indicator shows it: whole minutes, then seconds padded to two digits. */
  function FormatDuration(d: nat): (r: string)
    ensures |r| >= 4 && r[|r| - 3] == ':'
    ensures AllDigits(r[..|r| - 3]) && AllDigits(r[|r| - 2..])
  {
    var m := NatToString(d / 60);
    var ss := TwoDigits(d % 60);
    ColonLayout(m, ss);
    m + ":" + ss
  }

  /** `r` is "<minutes>:<seconds>" with decimal digits on both sides of the colon. */
  predicate ReadsAsClock(r: string, minutes: nat, seconds: nat) {
    |r| >= 4 && r[|r| - 3] == ':'
    && AllDigits(r[..|r| - 3]) && AllDigits(r[|r| - 2..])
    && ParseDigits(r[..|r| - 3]) == minutes && ParseDigits(r[|r| - 2..]) == seconds
  }

  /** The shown text reads back as the duration: whole minutes, then the seconds below sixty. */
  lemma FormatDurationReadsBack(d: nat)
    ensures ReadsAsClock(FormatDuration(d), d / 60, d % 60)
  {
    var m := NatToString(d / 60);
    var ss := TwoDigits(d % 60);
    assert FormatDuration(d) == m + ":" + ss;
    ColonLayout(m, ss);
    ParseNatToString(d / 60);
    TwoDigitsReadsBack(d % 60);
  }
}

/**
 * The daily symptom form and its voice shortcut (src/pages/SymptomLogPage.tsx): seven field
 * patterns tried in a fixed order against a transcript, each accepted value cut out of the
 * text, the leftover text normalised and appended to the notes, and the form's range schema.
 *
 * The regular expressions are an oracle: for a field and a text it returns the whole match
 * and the number the match captured, or nothing.
 */
module SymptomLog {
  import opened Wrappers
  import opened Text

  datatype Field = PainLevel | FatigueLevel | Mood | SleepHours | Appetite | Energy | Temperature

  /** The order in which the patterns are tried. */
  const PatternOrder: seq<Field> := [PainLevel, FatigueLevel, Mood, SleepHours, Appetite, Energy, Temperature]

  /** A field's place in `PatternOrder`. */
  function Rank(f: Field): (r: nat)
    ensures r < |PatternOrder| && PatternOrder[r] == f
  {
    match f
    case PainLevel => 0
    case FatigueLevel => 1
    case Mood => 2
    case SleepHours => 3
    case Appetite => 4
    case Energy => 5
    case Temperature => 6
  }

  /** The name a filled field is announced by. */
  function FieldLabel(f: Field): string {
    match f
    case PainLevel => "Pain"
    case FatigueLevel => "Fatigue"
    case Mood => "Mood"
    case SleepHours => "Sleep"
    case Appetite => "Appetite"
    case Energy => "Energy"
    case Temperature => "Temp"
  }

  /** The inclusive range a spoken value must fall in to be accepted. */
  function MinOf(f: Field): real {
    match f
    case SleepHours => 0.0
    case Temperature => 90.0
    case _ => 1.0
  }

  function MaxOf(f: Field): (r: real)
    ensures MinOf(f) < r
  {
    match f
    case SleepHours => 16.0
    case Temperature => 115.0
    case _ => 10.0
  }

  predicate InLimits(f: Field, v: real) {
    MinOf(f) <= v <= MaxOf(f)
  }

  /** A pattern match: the whole matched text and the number its group captured. */
  datatype PatternMatch = PatternMatch(matched: string, value: real)

  /** What the parser has after some patterns: accepted fields in acceptance order, and the text left. */
  datatype ParseState = ParseState(fields: seq<(Field, real)>, remaining: string)

  /** One pattern: an in-range match is recorded and its first occurrence cut out, then the text is trimmed. */
  function TryPattern(st: ParseState, f: Field, matcher: (Field, string) -> Option<PatternMatch>): ParseState {
    match matcher(f, st.remaining)
    case None => st
    case Some(m) =>
      if InLimits(f, m.value) then ParseState(st.fields + [(f, m.value)], Trim(ReplaceFirst(st.remaining, m.matched, "")))
      else st
  }

  /** The patterns `fs` tried in order, each against the text the earlier ones left. */
  function TryPatterns(st: ParseState, fs: seq<Field>, matcher: (Field, string) -> Option<PatternMatch>): ParseState {
    if fs == [] then st else TryPattern(TryPatterns(st, fs[..|fs| - 1], matcher), fs[|fs| - 1], matcher)
  }

  // ---------------------------------------------------------------- normalisation

  predicate IsPunct(c: char) {
    c == ',' || c == ';' || c == '.' || c == '!' || c == '?'
  }

  predicate NoPunct(s: string) {
    forall i :: 0 <= i < |s| ==> !IsPunct(s[i])
  }

  predicate NoDoubleSpace(s: string) {
    forall i :: 0 <= i < |s| - 1 ==> !(IsSpace(s[i]) && IsSpace(s[i + 1]))
  }

  function LeadingPunct(s: string): (n: nat)
    ensures 0 < n <= |s| || (n == 0 && (s == [] || !IsPunct(s[0])))
    ensures forall i :: 0 <= i < n ==> IsPunct(s[i])
    ensures n == |s| || !IsPunct(s[n])
  {
    if s == [] || !IsPunct(s[0]) then 0 else 1 + LeadingPunct(s[1..])
  }

  /** `replace(/[,;.!?]+\s*\/g, " ")`: each punctuation run and the white space after it becomes one space. */
  function StripPunct(s: string): (r: string)
    ensures NoPunct(r)
    ensures forall c :: c in r ==> c in s || c == ' '
    decreases |s|
  {
    if s == [] then []
    else if IsPunct(s[0]) then
      var rest := s[LeadingPunct(s)..];
      var after := rest[LeadingSpaces(rest)..];
      assert forall c :: c in after ==> c in s;
      " " + StripPunct(after)
    else
      [s[0]] + StripPunct(s[1..])
  }

  /** `replace(/\s{2,}/g, " ")`: each run of two or more white-space characters becomes one space. */
  function CollapseSpaces(s: string): (r: string)
    ensures NoDoubleSpace(r)
    ensures forall c :: c in r ==> c in s || c == ' '
    ensures s != [] && !IsSpace(s[0]) ==> r != [] && r[0] == s[0]
    decreases |s|
  {
    if s == [] then []
    else if !IsSpace(s[0]) then
      [s[0]] + CollapseSpaces(s[1..])
    else
      var run := LeadingSpaces(s);
      if run >= 2 then
        var r := " " + CollapseSpaces(s[run..]);
        assert forall c :: c in s[run..] ==> c in s;
        r
      else
        [s[0]] + CollapseSpaces(s[1..])
  }

  lemma SliceKeepsClean(c: string, a: nat, b: nat)
    requires a <= b <= |c| && NoPunct(c) && NoDoubleSpace(c)
    ensures NoPunct(c[a..b]) && NoDoubleSpace(c[a..b])
  {
    var r := c[a..b];
    forall i | 0 <= i < |r| - 1 ensures !(IsSpace(r[i]) && IsSpace(r[i + 1])) {
      assert r[i] == c[a + i] && r[i + 1] == c[a + i + 1];
    }
  }

  /** Text made only of characters of a punctuation-free text, and spaces, has no punctuation. */
  lemma NoPunctFrom(p: string, c: string)
    requires NoPunct(p) && forall ch :: ch in c ==> ch in p || ch == ' '
    ensures NoPunct(c)
  {
    forall i | 0 <= i < |c| ensures !IsPunct(c[i]) {
      assert c[i] in c;
      if c[i] != ' ' {
        var k :| 0 <= k < |p| && p[k] == c[i];
      }
    }
  }

  /** The clean-up applied to the leftover text. */
  function Normalize(s: string): (r: string)
    ensures NoPunct(r) && NoDoubleSpace(r)
    ensures r == [] || (!IsSpace(r[0]) && !IsSpace(r[|r| - 1]))
  {
    var p := StripPunct(s);
    var c := CollapseSpaces(p);
    NoPunctFrom(p, c);
    TrimKeepsClean(c);
    Trim(c)
  }

  lemma TrimKeepsClean(c: string)
    requires NoPunct(c) && NoDoubleSpace(c)
    ensures NoPunct(Trim(c)) && NoDoubleSpace(Trim(c))
  {
    var lead := LeadingSpaces(c);
    SliceKeepsClean(c, lead, lead + |Trim(c)|);
  }

  /** The characters the clean-up may drop, merge or turn into a space: white space and `, ; . ! ?`. */
  predicate IsSeparator(c: char) {
    IsSpace(c) || IsPunct(c)
  }

  /** The text with every separator removed: the words the clean-up has to keep. */
  function Squash(s: string): string {
    if s == [] then [] else (if IsSeparator(s[0]) then [] else [s[0]]) + Squash(s[1..])
  }

  lemma {:induction false} SquashAppend(a: string, b: string)
    ensures Squash(a + b) == Squash(a) + Squash(b)
  {
    if a != [] {
      assert (a + b)[0] == a[0] && (a + b)[1..] == a[1..] + b;
      SquashAppend(a[1..], b);
    } else {
      assert a + b == b;
    }
  }

  /** A run of separators has no words. */
  lemma {:induction false} SquashSeparators(s: string)
    requires forall i :: 0 <= i < |s| ==> IsSeparator(s[i])
    ensures Squash(s) == []
  {
    if s != [] {
      SquashSeparators(s[1..]);
    }
  }

  /** Cutting a string at `k`: the words of the two parts make the words of the whole. */
  lemma SquashSplitAt(s: string, k: nat)
    requires k <= |s|
    ensures Squash(s) == Squash(s[..k]) + Squash(s[k..])
  {
    assert s == s[..k] + s[k..];
    SquashAppend(s[..k], s[k..]);
  }

  /** Turning punctuation runs into spaces keeps every word, in order. */
  lemma {:induction false} StripPunctKeepsWords(s: string)
    ensures Squash(StripPunct(s)) == Squash(s)
    decreases |s|
  {
    if s != [] {
      if IsPunct(s[0]) {
        var lp := LeadingPunct(s);
        var rest := s[lp..];
        var ls := LeadingSpaces(rest);
        var after := rest[ls..];
        SquashSplitAt(s, lp);
        SquashSeparators(s[..lp]);
        SquashSplitAt(rest, ls);
        SquashSeparators(rest[..ls]);
        StripPunctKeepsWords(after);
        SquashAppend(" ", StripPunct(after));
      } else {
        StripPunctKeepsWords(s[1..]);
        SquashAppend([s[0]], StripPunct(s[1..]));
      }
    }
  }

  /** Collapsing white-space runs keeps every word, in order. */
  lemma {:induction false} CollapseKeepsWords(s: string)
    ensures Squash(CollapseSpaces(s)) == Squash(s)
    decreases |s|
  {
    if s != [] {
      var run := LeadingSpaces(s);
      if IsSpace(s[0]) && run >= 2 {
        SquashSplitAt(s, run);
        SquashSeparators(s[..run]);
        CollapseKeepsWords(s[run..]);
        SquashAppend(" ", CollapseSpaces(s[run..]));
      } else {
        CollapseKeepsWords(s[1..]);
        SquashAppend([s[0]], CollapseSpaces(s[1..]));
      }
    }
  }

  /** Trimming keeps every word. */
  lemma TrimKeepsWords(s: string)
    ensures Squash(Trim(s)) == Squash(s)
  {
    var lead := LeadingSpaces(s);
    var t := s[lead..];
    var k := |t| - TrailingSpaces(t);
    assert Trim(s) == t[..k];
    assert Squash(s) == Squash(t) by {
      SquashSplitAt(s, lead);
      SquashSeparators(s[..lead]);
    }
    assert Squash(t) == Squash(t[..k]) by {
      SquashSplitAt(t, k);
      TrailingRunBlank(t);
      SquashSeparators(t[k..]);
    }
  }

  /**
   * The clean-up keeps the user's words: dropping every separator from the leftover gives
   * the same text as dropping them from the input.
   */
  lemma NormalizeKeepsWords(s: string)
    ensures Squash(Normalize(s)) == Squash(s)
  {
    var p := StripPunct(s);
    StripPunctKeepsWords(s);
    CollapseKeepsWords(p);
    TrimKeepsWords(CollapseSpaces(p));
  }

  // ---------------------------------------------------------------- the parser

  /** What `parseVoiceCommands` returns for a transcript. */
  function ParseResult(transcript: string, matcher: (Field, string) -> Option<PatternMatch>): ParseState {
    var st := TryPatterns(ParseState([], transcript), PatternOrder, matcher);
    ParseState(st.fields, Normalize(st.remaining))
  }

  /** `parseVoiceCommands`: one pass over the patterns in order, then the clean-up. */
  method ParseVoiceCommands(transcript: string, matcher: (Field, string) -> Option<PatternMatch>)
    returns (fields: seq<(Field, real)>, remaining: string)
    ensures ParseState(fields, remaining) == ParseResult(transcript, matcher)
  {
    fields := [];
    remaining := transcript;
    for i := 0 to |PatternOrder|
      invariant ParseState(fields, remaining) == TryPatterns(ParseState([], transcript), PatternOrder[..i], matcher)
    {
      var f := PatternOrder[i];
      ghost var prefix := PatternOrder[..i + 1];
      assert prefix[..i] == PatternOrder[..i] && prefix[i] == f;
      ghost var next := TryPattern(ParseState(fields, remaining), f, matcher);
      assert TryPatterns(ParseState([], transcript), prefix, matcher) == next;
      var m := matcher(f, remaining);
      if m.Some? {
        var v := m.value.value;
        if MinOf(f) <= v && v <= MaxOf(f) {
          fields := fields + [(f, v)];
          remaining := Trim(ReplaceFirst(remaining, m.value.matched, ""));
        }
      }
    }
    assert PatternOrder[..|PatternOrder|] == PatternOrder;
    remaining := Normalize(remaining);
  }

  /** Fields are recorded in pattern order, at most once each, and all within their limits. */
  predicate WellFormedFields(fields: seq<(Field, real)>) {
    (forall i, j :: 0 <= i < j < |fields| ==> Rank(fields[i].0) < Rank(fields[j].0))
    && (forall i :: 0 <= i < |fields| ==> InLimits(fields[i].0, fields[i].1))
  }

  /** A pattern tried after every recorded field keeps the fields well formed. */
  lemma TryPatternStep(st: ParseState, f: Field, matcher: (Field, string) -> Option<PatternMatch>)
    requires WellFormedFields(st.fields)
    requires forall i :: 0 <= i < |st.fields| ==> Rank(st.fields[i].0) < Rank(f)
    ensures var fs := TryPattern(st, f, matcher).fields;
      WellFormedFields(fs) && forall i :: 0 <= i < |fs| ==> Rank(fs[i].0) <= Rank(f)
  {
  }

  /** The field at each place of `PatternOrder` has that place as its rank. */
  lemma RankOfPlace(k: nat)
    requires k < |PatternOrder|
    ensures Rank(PatternOrder[k]) == k
  {
    var order := PatternOrder;
    assert order[0] == PainLevel && order[1] == FatigueLevel && order[2] == Mood && order[3] == SleepHours;
    assert order[4] == Appetite && order[5] == Energy && order[6] == Temperature;
  }

  lemma {:induction false} TryPatternsWellFormed(transcript: string, n: nat, matcher: (Field, string) -> Option<PatternMatch>)
    requires n <= |PatternOrder|
    ensures var st := TryPatterns(ParseState([], transcript), PatternOrder[..n], matcher);
      WellFormedFields(st.fields) && forall i :: 0 <= i < |st.fields| ==> Rank(st.fields[i].0) < n
  {
    if n > 0 {
      TryPatternsWellFormed(transcript, n - 1, matcher);
      var prefix, f := PatternOrder[..n], PatternOrder[n - 1];
      assert prefix[..n - 1] == PatternOrder[..n - 1] && prefix[n - 1] == f;
      RankOfPlace(n - 1);
      var before := TryPatterns(ParseState([], transcript), PatternOrder[..n - 1], matcher);
      assert TryPatterns(ParseState([], transcript), prefix, matcher) == TryPattern(before, f, matcher);
      TryPatternStep(before, f, matcher);
    }
  }

  /** Every recorded value is within its field's limits, fields come in pattern order, and none twice. */
  lemma ParsedFieldsWellFormed(transcript: string, matcher: (Field, string) -> Option<PatternMatch>)
    ensures WellFormedFields(ParseResult(transcript, matcher).fields)
  {
    TryPatternsWellFormed(transcript, |PatternOrder|, matcher);
    assert PatternOrder[..|PatternOrder|] == PatternOrder;
  }

  /** A value out of its field's range changes neither the fields nor the text. */
  lemma OutOfRangeIgnored(st: ParseState, f: Field, matcher: (Field, string) -> Option<PatternMatch>)
    requires matcher(f, st.remaining).Some? && !InLimits(f, matcher(f, st.remaining).value.value)
    ensures TryPattern(st, f, matcher) == st
  {
  }

  /** An accepted value removes the first occurrence of the matched text, not every occurrence. */
  lemma AcceptedCutsFirstOccurrence(st: ParseState, f: Field, matcher: (Field, string) -> Option<PatternMatch>)
    requires matcher(f, st.remaining).Some?
    requires InLimits(f, matcher(f, st.remaining).value.value)
    requires Contains(st.remaining, matcher(f, st.remaining).value.matched)
    ensures var m := matcher(f, st.remaining).value;
      var i := IndexOf(st.remaining, m.matched).value;
      TryPattern(st, f, matcher).remaining == Trim(st.remaining[..i] + st.remaining[i + |m.matched|..])
      && TryPattern(st, f, matcher).fields == st.fields + [(f, m.value)]
  {
    var m := matcher(f, st.remaining).value;
    var i := IndexOf(st.remaining, m.matched).value;
    assert ReplaceFirst(st.remaining, m.matched, "") == st.remaining[..i] + st.remaining[i + |m.matched|..];
  }

  // ---------------------------------------------------------------- the form

  /** The zod schema: the five 1-10 scores, sleep in 0-24, temperature unchecked. */
  predicate SchemaOk(values: map<Field, real>) {
    (forall f :: f in values && f != SleepHours && f != Temperature ==> 1.0 <= values[f] <= 10.0)
    && (SleepHours in values ==> 0.0 <= values[SleepHours] <= 24.0)
    && forall f :: f != Temperature ==> f in values
  }

  function DefaultValues(): (m: map<Field, real>)
    ensures SchemaOk(m) && Temperature !in m
  {
    map[PainLevel := 5.0, FatigueLevel := 5.0, Mood := 5.0, SleepHours := 7.0, Appetite := 5.0, Energy := 5.0]
  }

  /** The form values after `setValue` for each recorded field, in order. */
  function Assign(values: map<Field, real>, fields: seq<(Field, real)>): map<Field, real> {
    if fields == [] then values else Assign(values, fields[..|fields| - 1])[fields[|fields| - 1].0 := fields[|fields| - 1].1]
  }

  /**
   * Voice limits sit inside the schema's ranges (sleep stops at 16 where the form allows 24),
   * so filling a valid form from the voice parser leaves it valid.
   */
  lemma {:induction false} AssignKeepsSchema(values: map<Field, real>, fields: seq<(Field, real)>)
    requires SchemaOk(values) && forall i :: 0 <= i < |fields| ==> InLimits(fields[i].0, fields[i].1)
    ensures SchemaOk(Assign(values, fields))
  {
    if fields != [] {
      AssignKeepsSchema(values, fields[..|fields| - 1]);
    }
  }

  /** Each spoken field holds its spoken value. */
  lemma {:induction false} AssignSetsFields(values: map<Field, real>, fields: seq<(Field, real)>)
    requires WellFormedFields(fields)
    ensures forall i :: 0 <= i < |fields| ==> fields[i].0 in Assign(values, fields) && Assign(values, fields)[fields[i].0] == fields[i].1
  {
    if fields != [] {
      var n := |fields| - 1;
      var init, g, v := fields[..n], fields[n].0, fields[n].1;
      var before, after := Assign(values, init), Assign(values, fields);
      assert after == before[g := v];
      assert forall i :: 0 <= i < n ==> init[i] == fields[i];
      assert WellFormedFields(init);
      AssignSetsFields(values, init);
      forall i | 0 <= i < |fields| ensures fields[i].0 in after && after[fields[i].0] == fields[i].1 {
        if i < n {
          assert Rank(fields[i].0) < Rank(g);
        }
      }
    }
  }

  /** A field nobody spoke keeps its value, and stays absent when it was absent. */
  lemma {:induction false} AssignKeepsOthers(values: map<Field, real>, fields: seq<(Field, real)>, f: Field)
    requires forall i :: 0 <= i < |fields| ==> fields[i].0 != f
    ensures f in Assign(values, fields) <==> f in values
    ensures f in values ==> Assign(values, fields)[f] == values[f]
  {
    if fields != [] {
      var n := |fields| - 1;
      var init := fields[..n];
      assert fields[n].0 != f;
      assert forall i :: 0 <= i < n ==> init[i] == fields[i];
      AssignKeepsOthers(values, init, f);
    }
  }

  /** A filled-field announcement: label, value, and the "h" unit that only sleep carries. */
  datatype FilledEntry = FilledEntry(fieldLabel: string, value: real, unit: string)

  function Announce(f: Field, v: real): (e: FilledEntry)
    ensures e.fieldLabel == FieldLabel(f) && e.value == v
    ensures e.unit == (if f == SleepHours then "h" else "")
  {
    FilledEntry(FieldLabel(f), v, if f == SleepHours then "h" else "")
  }

  function Announcements(fields: seq<(Field, real)>): (r: seq<FilledEntry>)
    ensures |r| == |fields|
    ensures forall i :: 0 <= i < |fields| ==> r[i] == Announce(fields[i].0, fields[i].1)
  {
    if fields == [] then [] else Announcements(fields[..|fields| - 1]) + [Announce(fields[|fields| - 1].0, fields[|fields| - 1].1)]
  }

  /** The toast the voice result raises. */
  datatype VoiceNotice = VoiceFilled(entries: seq<FilledEntry>) | NothingMatched | NoNotice

  /** The notes after leftover text is merged: joined with one space, or replacing empty notes. */
  function MergeNotes(notes: string, leftover: string): (r: string)
    ensures leftover != [] && notes != [] ==> |r| == |notes| + 1 + |leftover|
    ensures leftover == [] ==> r == notes
    ensures leftover != [] && notes == [] ==> r == leftover
    ensures leftover != [] && notes != [] ==> r[..|notes|] == notes && r[|notes|] == ' ' && r[|notes| + 1..] == leftover
  {
    if leftover == [] then notes else if notes != [] then notes + " " + leftover else leftover
  }

  /** The fills when there are any, else "Nothing matched" when no text was left either, else nothing. */
  function Notice(fields: seq<(Field, real)>, remaining: string): (n: VoiceNotice)
    ensures n.VoiceFilled? <==> fields != []
    ensures n.VoiceFilled? ==> n.entries == Announcements(fields)
    ensures n.NothingMatched? <==> fields == [] && remaining == []
  {
    if fields != [] then VoiceFilled(Announcements(fields))
    else if remaining == [] then NothingMatched
    else NoNotice
  }

  /** The `forEach` over the recorded fields: each is set in turn and announced in order. */
  method ApplyFields(start: map<Field, real>, fields: seq<(Field, real)>)
    returns (values: map<Field, real>, filled: seq<FilledEntry>)
    ensures values == Assign(start, fields)
    ensures filled == Announcements(fields)
  {
    values, filled := start, [];
    for i := 0 to |fields|
      invariant values == Assign(start, fields[..i])
      invariant filled == Announcements(fields[..i])
    {
      assert fields[..i + 1] == fields[..i] + [fields[i]];
      values := values[fields[i].0 := fields[i].1];
      filled := filled + [Announce(fields[i].0, fields[i].1)];
    }
    assert fields[..|fields|] == fields;
  }

  class SymptomForm {
    var values: map<Field, real>
    var notes: string

    predicate Valid()
      reads this
    {
      SchemaOk(values)
    }

    constructor ()
      ensures Valid() && values == DefaultValues() && notes == []
    {
      values := DefaultValues();
      notes := [];
    }

    /**
     * `onresult` for one transcript: every recorded field is set and announced in order, the
     * leftover text goes into the notes, and the notice is the list of fills, else "Nothing
     * matched" when nothing was left over either, else none.
     */
    method OnVoiceResult(transcript: string, matcher: (Field, string) -> Option<PatternMatch>) returns (notice: VoiceNotice)
      requires Valid()
      modifies this
      ensures Valid()
      ensures var p := ParseResult(transcript, matcher);
        values == Assign(old(values), p.fields)
        && notes == MergeNotes(old(notes), p.remaining)
        && notice == Notice(p.fields, p.remaining)
    {
      var fields, remaining := ParseVoiceCommands(transcript, matcher);
      ParsedFieldsWellFormed(transcript, matcher);
      notice := Fill(fields, remaining);
    }

    /** The part of `onresult` after parsing. */
    method Fill(fields: seq<(Field, real)>, remaining: string) returns (notice: VoiceNotice)
      requires Valid() && WellFormedFields(fields)
      modifies this
      ensures Valid()
      ensures values == Assign(old(values), fields)
      ensures notes == MergeNotes(old(notes), remaining)
      ensures notice == Notice(fields, remaining)
    {
      AssignKeepsSchema(values, fields);
      var vals, filled := ApplyFields(values, fields);
      values := vals;
      if remaining != [] {
        notes := MergeNotes(notes, remaining);
      }
      if |filled| > 0 {
        notice := VoiceFilled(filled);
      } else if remaining == [] {
        notice := NothingMatched;
      } else {
        notice := NoNotice;
      }
    }
  }
}

/**
 * The shared text input (src/components/Input.tsx): the element id it derives from its
 * label when none is given, and when its error line is rendered.
 */
module InputField {
  import opened Wrappers
  import opened Text
  import opened Seqs

  /** `s.replace(/\s+/g, "-")`: every maximal run of white space becomes one "-". */
  function DashRuns(s: string): (r: string)
    ensures NoSpace(r)
    ensures |r| <= |s|
    decreases |s|
  {
    if s == [] then []
    else if IsSpace(s[0]) then "-" + DashRuns(s[LeadingSpaces(s)..])
    else [s[0]] + DashRuns(s[1..])
  }

  /** The text with its white space and dashes removed: what dashing the runs must keep. */
  function Unspaced(s: string): string {
    Filter(s, (c: char) => !IsSpace(c) && c != '-')
  }

  /**
   * Dashing keeps every other character, in order: with white space and dashes removed, the
   * result and the input are the same text.
   */
  lemma {:induction false} DashRunsKeepsText(s: string)
    ensures Unspaced(DashRuns(s)) == Unspaced(s)
    decreases |s|
  {
    var p := (c: char) => !IsSpace(c) && c != '-';
    if s != [] {
      if IsSpace(s[0]) {
        var n := LeadingSpaces(s);
        assert s == s[..n] + s[n..];
        FilterAppend(s[..n], s[n..], p);
        FilterNone(s[..n], p);
        FilterAppend("-", DashRuns(s[n..]), p);
        FilterNone("-", p);
        DashRunsKeepsText(s[n..]);
      } else {
        assert s == [s[0]] + s[1..];
        FilterAppend([s[0]], s[1..], p);
        FilterAppend([s[0]], DashRuns(s[1..]), p);
        DashRunsKeepsText(s[1..]);
      }
    }
  }

  /** A string without white space is left as it is. */
  lemma {:induction false} DashRunsNoSpace(s: string)
    requires NoSpace(s)
    ensures DashRuns(s) == s
    decreases |s|
  {
    if s != [] {
      DashRunsNoSpace(s[1..]);
    }
  }

  /** A run of white space followed by a word becomes one "-" before the word. */
  lemma DashRunsGapWord(gap: string, b: string)
    requires NoSpace(b) && gap != [] && IsBlank(gap) && (b == [] || !IsSpace(b[0]))
    ensures DashRuns(gap + b) == "-" + b
  {
    var s := gap + b;
    LeadingBlank(gap, b);
    assert s[|gap|..] == b;
    DashRunsNoSpace(b);
    assert IsSpace(s[0]);
  }

  /** Two words separated by a run of white space are joined by a single "-". */
  lemma {:induction false} DashRunsTwoWords(a: string, gap: string, b: string)
    requires NoSpace(a) && NoSpace(b) && gap != [] && IsBlank(gap) && (b == [] || !IsSpace(b[0]))
    ensures DashRuns(a + gap + b) == a + "-" + b
    decreases |a|
  {
    if a == [] {
      assert a + gap + b == gap + b;
      DashRunsGapWord(gap, b);
    } else {
      var s := a + gap + b;
      assert s[0] == a[0] && s[1..] == a[1..] + gap + b;
      DashRunsTwoWords(a[1..], gap, b);
      assert a + "-" + b == [a[0]] + (a[1..] + "-" + b);
    }
  }

  /** The leading white space of a blank run followed by a word is exactly the run. */
  lemma {:induction false} LeadingBlank(gap: string, b: string)
    requires IsBlank(gap) && (b == [] || !IsSpace(b[0]))
    ensures LeadingSpaces(gap + b) == |gap|
    decreases |gap|
  {
    if gap == [] {
      assert gap + b == b;
    } else {
      LeadingBlank(gap[1..], b);
      assert (gap + b)[1..] == gap[1..] + b;
    }
  }

  /** `id || label?.toLowerCase().replace(/\s+/g, "-")`. */
  function InputId(id: Option<string>, inputLabel: Option<string>): (r: Option<string>)
    ensures Truthy(id) ==> r == id
    ensures !Truthy(id) && inputLabel.None? ==> r.None?
    ensures !Truthy(id) && inputLabel.Some? ==> r == Some(DashRuns(Lower(inputLabel.value)))
    ensures !Truthy(id) && r.Some? ==> NoSpace(r.value)
  {
    if Truthy(id) then id
    else if inputLabel.Some? then Some(DashRuns(Lower(inputLabel.value)))
    else None
  }

  lemma LowerFullName()
    ensures Lower("Full Name") == "full name"
  {
    var r := Lower("Full Name");
    assert r[0] == 'f' && r[5] == 'n';
    assert r[1..5] == "ull " && r[6..] == "ame";
  }

  /** A label "First Last" gives the id "first-last". */
  lemma LabelIdExample()
    ensures InputId(None, Some("Full Name")) == Some("full-name")
  {
    LowerFullName();
    assert "full name" == "full" + " " + "name";
    DashRunsTwoWords("full", " ", "name");
    assert "full" + "-" + "name" == "full-name";
  }

  /** The error line is rendered iff the error text is non-empty. */
  function ErrorShown(error: Option<string>): (r: bool)
    ensures r <==> error.Some? && error.value != []
  {
    Truthy(error)
  }
}

/**
 * The desktop sidebar (src/components/layout/Sidebar.tsx): the avatar initials, which
 * navigation list a role gets, and which entry is highlighted for the current path.
 */
module Sidebar {
  import opened Wrappers
  import opened Text
  import opened Types

  // ---------------------------------------------------------------- initials

  /** `words.map((w) => w[0]).join("")`: an empty word's missing first character adds nothing. */
  function Heads(words: seq<string>): (r: string)
    ensures |r| <= |words|
  {
    if words == [] then []
    else (if words[0] == [] then [] else [words[0][0]]) + Heads(words[1..])
  }

  /**
   * The avatar text: the first characters of the space-separated words, at most two,
   * upper-cased; "?" without a name.
   */
  function Initials(name: Option<string>): (r: string)
    ensures |r| <= 2
    ensures forall i :: 0 <= i < |r| ==> !IsLowerLetter(r[i])
    ensures !Truthy(name) ==> r == "?"
    ensures Truthy(name) ==>
      var heads := Heads(Split(name.value, ' '));
      r == Upper(if |heads| <= 2 then heads else heads[..2])
  {
    if Truthy(name) then
      var heads := Heads(Split(name.value, ' '));
      Upper(if |heads| <= 2 then heads else heads[..2])
    else "?"
  }

  /** Two words split into the two words. */
  lemma SplitTwoWords(a: string, b: string)
    requires ' ' !in a && ' ' !in b
    ensures Split(a + " " + b, ' ') == [a, b]
  {
    var s := a + " " + b;
    assert OccursAt(s, [' '], |a|) by {
      assert s[|a|..|a| + 1] == [' '];
    }
    forall k | 0 <= k < |a| ensures !OccursAt(s, [' '], k) {
      assert s[k..k + 1] == [a[k]];
    }
    assert s[..|a|] == a && s[|a| + 1..] == b;
    SplitWithoutSep(b, ' ');
  }

  /** "Jane Doe" gives "JD": the first letters of the two words, in order. */
  lemma TwoWordInitials(a: string, b: string)
    requires a != [] && b != [] && ' ' !in a && ' ' !in b
    ensures Initials(Some(a + " " + b)) == [UpperChar(a[0]), UpperChar(b[0])]
  {
    SplitTwoWords(a, b);
    assert Heads([a, b]) == [a[0]] + Heads([b]);
    assert Heads([b]) == [b[0]] + Heads([]);
  }

  /** Every character of a piece appears in the joined string. */
  lemma {:induction false} PieceInJoin(parts: seq<string>, sep: string, i: nat, k: nat)
    requires i < |parts| && k < |parts[i]|
    ensures parts[i][k] in Join(parts, sep)
  {
    if |parts| > 1 {
      var joined := Join(parts, sep);
      assert joined == parts[0] + sep + Join(parts[1..], sep);
      if i == 0 {
        assert joined[k] == parts[0][k];
      } else {
        PieceInJoin(parts[1..], sep, i - 1, k);
      }
    }
  }

  lemma {:induction false} HeadsOfEmptyWords(words: seq<string>)
    requires forall i :: 0 <= i < |words| ==> words[i] == []
    ensures Heads(words) == []
  {
    if words != [] {
      HeadsOfEmptyWords(words[1..]);
    }
  }

  /** A name made only of spaces is truthy yet gives empty initials rather than "?". */
  lemma BlankNameGivesNoInitials(name: string)
    requires name != [] && forall i :: 0 <= i < |name| ==> name[i] == ' '
    ensures Initials(Some(name)) == []
  {
    var words := Split(name, ' ');
    JoinSplit(name, ' ');
    forall i | 0 <= i < |words| ensures words[i] == [] {
      if words[i] != [] {
        PieceInJoin(words, [' '], i, 0);
        assert false;
      }
    }
    HeadsOfEmptyWords(words);
  }

  // ---------------------------------------------------------------- navigation

  datatype NavItem = NavItem(to: string, caption: string)

  const PatientNav: seq<NavItem> := [
    NavItem("/dashboard", "Dashboard"),
    NavItem("/log", "Log Symptoms"),
    NavItem("/history", "History"),
    NavItem("/milestones", "Milestones"),
    NavItem("/chat", "Chat"),
    NavItem("/requests", "Connections")]

  const DoctorNav: seq<NavItem> := [
    NavItem("/dashboard", "Dashboard"),
    NavItem("/patients", "Patients"),
    NavItem("/chat", "Chat"),
    NavItem("/requests", "Requests")]

  /** Doctors get the doctor list; everyone else, a signed-out viewer included, the patient list. */
  function NavFor(role: Option<Role>): (r: seq<NavItem>)
    ensures r == DoctorNav <==> role == Some(Doctor)
    ensures r == PatientNav <==> role != Some(Doctor)
  {
    if role == Some(Doctor) then DoctorNav else PatientNav
  }

  /** The SOS entry is for patients only. */
  function ShowSos(role: Option<Role>): (r: bool)
    ensures r <==> role == Some(Patient)
  {
    role == Some(Patient)
  }

  /** An entry is highlighted on its own path, and — except Dashboard — on any path below it. */
  predicate IsActive(path: string, to: string) {
    path == to || (to != "/dashboard" && StartsWith(path, to + "/"))
  }

  lemma ActiveIsBelow(path: string, to: string)
    ensures IsActive(path, to) ==> StartsWith(path, to)
  {
    if IsActive(path, to) && path != to {
      assert path[..|to|] == (to + "/")[..|to|];
    }
  }

  lemma PathExamples()
    ensures IsActive("/patients/7", "/patients")
    ensures !IsActive("/patientsX", "/patients")
    ensures !IsActive("/dashboard/x", "/dashboard") && IsActive("/dashboard", "/dashboard")
  {
    assert "/patients/7"[..10] == "/patients/";
    assert "/patientsX"[9] == 'X';
  }

  /** Two prefixes of one path: the shorter is a prefix of the longer. */
  lemma PrefixOfPrefix(path: string, a: string, b: string)
    ensures StartsWith(path, a) && StartsWith(path, b) && |a| <= |b| ==> StartsWith(b, a)
  {
    if StartsWith(path, a) && StartsWith(path, b) && |a| <= |b| {
      assert b[..|a|] == path[..|b|][..|a|];
    }
  }

  /** No target is a prefix of another target. */
  predicate PrefixFree(nav: seq<NavItem>) {
    forall i, j :: 0 <= i < |nav| && 0 <= j < |nav| && i != j ==> !StartsWith(nav[j].to, nav[i].to)
  }

  /** With prefix-free targets, at most one entry is highlighted for any path. */
  lemma AtMostOneActive(path: string, nav: seq<NavItem>)
    requires PrefixFree(nav)
    ensures forall i, j :: 0 <= i < j < |nav| ==> !(IsActive(path, nav[i].to) && IsActive(path, nav[j].to))
  {
    forall i, j | 0 <= i < j < |nav|
      ensures !(IsActive(path, nav[i].to) && IsActive(path, nav[j].to))
    {
      ActiveIsBelow(path, nav[i].to);
      ActiveIsBelow(path, nav[j].to);
      PrefixOfPrefix(path, nav[i].to, nav[j].to);
      PrefixOfPrefix(path, nav[j].to, nav[i].to);
    }
  }

  /** Targets of at least two characters that differ from one another in their second one. */
  predicate DistinctSecondChars(nav: seq<NavItem>) {
    (forall i :: 0 <= i < |nav| ==> |nav[i].to| >= 2)
    && forall i, j :: 0 <= i < |nav| && 0 <= j < |nav| && i != j ==> nav[i].to[1] != nav[j].to[1]
  }

  lemma DistinctSecondCharsPrefixFree(nav: seq<NavItem>)
    requires DistinctSecondChars(nav)
    ensures PrefixFree(nav)
  {
    forall i, j | 0 <= i < |nav| && 0 <= j < |nav| && i != j
      ensures !StartsWith(nav[j].to, nav[i].to)
    {
      if |nav[i].to| <= |nav[j].to| {
        assert nav[j].to[..|nav[i].to|][1] == nav[j].to[1];
      }
    }
  }

  /** The patient list highlights at most one entry on any path. */
  lemma PatientNavPrefixFree()
    ensures PrefixFree(PatientNav)
  {
    var nav := PatientNav;
    assert nav[0].to[1] == 'd' && nav[1].to[1] == 'l' && nav[2].to[1] == 'h';
    assert nav[3].to[1] == 'm' && nav[4].to[1] == 'c' && nav[5].to[1] == 'r';
    DistinctSecondCharsPrefixFree(nav);
  }

  /** The doctor list highlights at most one entry on any path. */
  lemma DoctorNavPrefixFree()
    ensures PrefixFree(DoctorNav)
  {
    var nav := DoctorNav;
    assert nav[0].to[1] == 'd' && nav[1].to[1] == 'p' && nav[2].to[1] == 'c' && nav[3].to[1] == 'r';
    DistinctSecondCharsPrefixFree(nav);
  }

  /** Whatever the role and the path, at most one navigation entry is highlighted. */
  lemma OneHighlightedEntry(path: string, role: Option<Role>)
    ensures forall i, j :: 0 <= i < j < |NavFor(role)| ==>
      !(IsActive(path, NavFor(role)[i].to) && IsActive(path, NavFor(role)[j].to))
  {
    if role == Some(Doctor) {
      DoctorNavPrefixFree();
      AtMostOneActive(path, DoctorNav);
    } else {
      PatientNavPrefixFree();
      AtMostOneActive(path, PatientNav);
    }
  }
}

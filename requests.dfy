/**
 * The care-plan request page (src/pages/RequestsPage.tsx): the urgency badge of an AI plan,
 * the incoming and outgoing request lists, and the doctor's three-step wizard — find the
 * patient by email or connect code, fill in the clinical details, see the result.
 */
module Requests {
  import opened Wrappers
  import opened Text
  import opened Types
  import opened Seqs
  import opened MedicationRows

  // ---------------------------------------------------------------- urgency badge

  /** The lower-cased first space-separated word of the urgency, "medium" when there is none. */
  function UrgencyKey(urgency: Option<string>): (r: string)
    ensures var l := Lower(urgency.GetOr("medium"));
      |r| <= |l| && r == l[..|r|] && (|r| == |l| || l[|r|] == ' ')
    ensures ' ' !in r
  {
    var lowered := Lower(urgency.GetOr("medium"));
    SplitFirstPiece(lowered, ' ');
    Split(lowered, ' ')[0]
  }

  datatype UrgencyStyle = LowStyle | MediumStyle | HighStyle | CriticalStyle

  /** `urgencyStyles[key] ?? urgencyStyles.medium`. */
  function StyleFor(key: string): (r: UrgencyStyle)
    ensures key != "low" && key != "high" && key != "critical" ==> r == MediumStyle
    ensures r == LowStyle <==> key == "low"
    ensures r == HighStyle <==> key == "high"
    ensures r == CriticalStyle <==> key == "critical"
  {
    if key == "low" then LowStyle
    else if key == "medium" then MediumStyle
    else if key == "high" then HighStyle
    else if key == "critical" then CriticalStyle
    else MediumStyle
  }

  /** A two-word urgency is keyed by its first word, lower-cased. */
  lemma TwoWordUrgencyKey()
    ensures UrgencyKey(Some("High risk")) == "high" && StyleFor(UrgencyKey(Some("High risk"))) == HighStyle
  {
    var l := Lower("High risk");
    assert l[..4] == "high" && l[4] == ' ';
    assert forall k :: 0 <= k < 4 ==> l[k] != ' ';
  }

  lemma MissingUrgencyIsMedium()
    ensures UrgencyKey(None) == "medium" && StyleFor(UrgencyKey(None)) == MediumStyle
  {
    var lowered := Lower("medium");
    assert lowered == "medium";
    SplitWithoutSep(lowered, ' ');
  }

  // ---------------------------------------------------------------- request lists

  /** Requests addressed to the viewer; none when nobody is signed in. */
  function Incoming(requests: seq<RequestResponse>, userId: Option<string>): (r: seq<RequestResponse>)
    ensures forall q :: q in r <==> q in requests && userId == Some(q.toId)
    ensures var ks := KeptPositions(requests, (q: RequestResponse) => userId == Some(q.toId));
      |r| == |ks| && forall k :: 0 <= k < |r| ==> r[k] == requests[ks[k]]
  {
    FilterAtKeptPositions(requests, (q: RequestResponse) => userId == Some(q.toId));
    Filter(requests, (q: RequestResponse) => userId == Some(q.toId))
  }

  /** Requests the viewer sent; none when nobody is signed in. */
  function Outgoing(requests: seq<RequestResponse>, userId: Option<string>): (r: seq<RequestResponse>)
    ensures forall q :: q in r <==> q in requests && userId == Some(q.fromId)
    ensures var ks := KeptPositions(requests, (q: RequestResponse) => userId == Some(q.fromId));
      |r| == |ks| && forall k :: 0 <= k < |r| ==> r[k] == requests[ks[k]]
  {
    FilterAtKeptPositions(requests, (q: RequestResponse) => userId == Some(q.fromId));
    Filter(requests, (q: RequestResponse) => userId == Some(q.fromId))
  }

  // ---------------------------------------------------------------- the wizard

  datatype SendMode = ByEmail | ByCode

  /** Where the plan goes: exactly one of an email address and a connect code. */
  datatype Recipient = ToEmail(email: string) | ToCode(connectCode: string)

  datatype SendRequestBody = SendRequestBody(
    recipient: Recipient,
    specialty: Option<string>,
    visitDate: Option<string>,
    diseaseDescription: string,
    medications: seq<MedicationInput>)

  /** Connect codes are six characters. */
  const CodeLength: nat := 6

  class CarePlanWizard {
    var step: nat
    var mode: SendMode
    var email: string
    var code: string
    var lookedUp: Option<SafeUser>
    var specialty: string
    var visitDate: string
    var diseaseDesc: string
    var meds: seq<MedicationInput>
    var sentRequest: Option<RequestResponse>

    /**
     * The step is 1, 2 or 3; there is always a medication row; and step 2 in code mode is only
     * reached with a looked-up patient.
     */
    predicate Valid()
      reads this
    {
      1 <= step <= 3 && |meds| >= 1 && (step == 2 && mode == ByCode ==> lookedUp.Some?)
    }

    /** The fields as the page first shows them, apart from the mode. */
    predicate Fresh()
      reads this
    {
      step == 1 && email == [] && code == [] && lookedUp == None && specialty == [] && visitDate == []
      && diseaseDesc == [] && meds == [EmptyMed()] && sentRequest == None
    }

    constructor ()
      ensures Valid() && Fresh() && mode == ByEmail
    {
      step := 1;
      mode := ByEmail;
      email := [];
      code := [];
      lookedUp := None;
      specialty := [];
      visitDate := [];
      diseaseDesc := [];
      meds := [EmptyMed()];
      sentRequest := None;
    }

    /** The mode toggle, shown on step 1. */
    method SetMode(m: SendMode)
      requires Valid() && step == 1
      modifies this`mode
      ensures Valid() && mode == m
    {
      mode := m;
    }

    /** The code box upper-cases what is typed; the box holds at most six characters. */
    method TypeCode(typed: string)
      requires |typed| <= CodeLength
      modifies this`code
      ensures code == Upper(typed) && |code| <= CodeLength
    {
      code := Upper(typed);
    }

    method TypeEmail(typed: string)
      modifies this`email
      ensures email == typed
    {
      email := typed;
    }

    /** Next is enabled for a non-blank email, or a code of exactly six characters once trimmed. */
    function NextEnabled(): (r: bool)
      reads this
      ensures mode == ByEmail ==> (r <==> !IsBlank(email))
      ensures mode == ByCode ==> (r <==> |Trim(code)| == CodeLength)
    {
      if mode == ByEmail then Trim(email) != [] else |Trim(code)| == CodeLength
    }

    /** `handleStep1Submit`: in email mode go to step 2; in code mode ask for a lookup of the trimmed code. */
    method Step1Submit() returns (lookup: Option<string>)
      requires Valid()
      modifies this`step
      ensures Valid()
      ensures mode == ByEmail ==> step == 2 && lookup == None
      ensures mode == ByCode ==> step == old(step) && lookup == Some(Trim(code))
    {
      if mode == ByCode {
        lookup := Some(Trim(code));
      } else {
        step := 2;
        lookup := None;
      }
    }

    /** The lookup answered: a patient moves the wizard to step 2; no patient leaves it and raises a warning. */
    method OnLookup(found: Option<SafeUser>) returns (warnNotFound: bool)
      requires Valid()
      modifies this`step, this`lookedUp
      ensures Valid()
      ensures found.Some? ==> lookedUp == found && step == 2 && !warnNotFound
      ensures found.None? ==> lookedUp == old(lookedUp) && step == old(step) && warnNotFound
    {
      if found.Some? {
        lookedUp := found;
        step := 2;
        warnNotFound := false;
      } else {
        warnNotFound := true;
      }
    }

    /** Send Plan is enabled once the disease description is not blank. */
    function SendEnabled(): (r: bool)
      reads this
      ensures r <==> !IsBlank(diseaseDesc)
    {
      Trim(diseaseDesc) != []
    }

    /** The request body: the recipient by mode, blank optional texts left out, only named rows. */
    function Payload(): (b: SendRequestBody)
      reads this
      ensures mode == ByEmail <==> b.recipient.ToEmail?
      ensures b.recipient.ToEmail? ==> b.recipient.email == Trim(email)
      ensures b.recipient.ToCode? ==> b.recipient.connectCode == Upper(Trim(code))
      ensures b.specialty == EmptyToNone(Trim(specialty)) && b.visitDate == EmptyToNone(visitDate)
      ensures b.diseaseDescription == Trim(diseaseDesc) && b.medications == NamedRows(meds)
    {
      SendRequestBody(
        if mode == ByEmail then ToEmail(Trim(email)) else ToCode(Upper(Trim(code))),
        EmptyToNone(Trim(specialty)),
        EmptyToNone(visitDate),
        Trim(diseaseDesc),
        NamedRows(meds))
    }

    /** The plan was sent: keep the server's answer and show step 3. */
    method OnSendSuccess(res: ApiResponse<RequestResponse>)
      requires Valid()
      modifies this`step, this`sentRequest
      ensures Valid() && step == 3 && sentRequest == res.data
    {
      sentRequest := res.data;
      step := 3;
    }

    /** Back from step 2: step 1, and the looked-up patient is forgotten. */
    method Back()
      requires Valid() && step == 2
      modifies this`step, this`lookedUp
      ensures Valid() && step == 1 && lookedUp == None
    {
      step := 1;
      lookedUp := None;
    }

    /** "Send Another Plan": every field back to its initial value except the mode. */
    method SendAnother()
      requires Valid() && step == 3
      modifies this
      ensures Valid() && Fresh() && mode == old(mode)
    {
      step := 1;
      email := [];
      code := [];
      lookedUp := None;
      specialty := [];
      visitDate := [];
      diseaseDesc := [];
      meds := [EmptyMed()];
      sentRequest := None;
    }

    method UpdateRow(i: nat, f: MedField, v: string)
      requires Valid() && i < |meds|
      modifies this`meds
      ensures Valid() && meds == UpdateMed(old(meds), i, f, v)
    {
      meds := UpdateMed(meds, i, f, v);
    }

    method AddRow()
      requires Valid()
      modifies this`meds
      ensures Valid() && meds == AddMed(old(meds))
    {
      meds := AddMed(meds);
    }

    /** The delete button exists only while there is more than one row. */
    method RemoveRow(i: nat)
      requires Valid() && |meds| > 1 && i < |meds|
      modifies this`meds
      ensures Valid() && meds == RemoveMed(old(meds), i)
    {
      RemoveMedDropsRow(meds, i);
      meds := RemoveMed(meds, i);
    }
  }
}

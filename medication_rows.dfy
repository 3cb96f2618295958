/**
 * The editable medication rows shared by the care-plan modal (src/pages/PatientDetailPage.tsx)
 * and the send-care-plan wizard (src/pages/RequestsPage.tsx): set one field of one row, add an
 * empty row, drop a row by index, and keep only named rows when saving.
 */
module MedicationRows {
  import opened Text
  import opened Types
  import opened Seqs

  datatype MedField = Name | Dosage | Frequency | TimeOfDay | Instructions

  /** `emptyMed()`. */
  function EmptyMed(): (m: MedicationInput)
    ensures forall f :: GetField(m, f) == []
  {
    MedicationInput("", "", "", "", "")
  }

  function GetField(m: MedicationInput, f: MedField): string {
    match f
    case Name => m.name
    case Dosage => m.dosage
    case Frequency => m.frequency
    case TimeOfDay => m.timeOfDay
    case Instructions => m.instructions
  }

  /** `{ ...m, [field]: value }`. */
  function SetField(m: MedicationInput, f: MedField, v: string): (r: MedicationInput)
    ensures GetField(r, f) == v
    ensures forall g :: g != f ==> GetField(r, g) == GetField(m, g)
  {
    match f
    case Name => m.(name := v)
    case Dosage => m.(dosage := v)
    case Frequency => m.(frequency := v)
    case TimeOfDay => m.(timeOfDay := v)
    case Instructions => m.(instructions := v)
  }

  /** `updateMed(i, field, value)`: only that field of that row changes. */
  function UpdateMed(rows: seq<MedicationInput>, i: nat, f: MedField, v: string): (r: seq<MedicationInput>)
    requires i < |rows|
    ensures |r| == |rows|
    ensures GetField(r[i], f) == v && forall g :: g != f ==> GetField(r[i], g) == GetField(rows[i], g)
    ensures forall j :: 0 <= j < |rows| && j != i ==> r[j] == rows[j]
  {
    rows[i := SetField(rows[i], f, v)]
  }

  /** `[...rows, emptyMed()]`. */
  function AddMed(rows: seq<MedicationInput>): (r: seq<MedicationInput>)
    ensures |r| == |rows| + 1 && r[..|rows|] == rows && r[|rows|] == EmptyMed()
  {
    rows + [EmptyMed()]
  }

  /** `rows.filter((_, idx) => idx !== i)`, written as the index filter it is; `offset` is the index of `rows[0]`. */
  function DropIndex(rows: seq<MedicationInput>, i: nat, offset: nat): seq<MedicationInput>
    decreases |rows|
  {
    if rows == [] then []
    else if offset == i then DropIndex(rows[1..], i, offset + 1)
    else [rows[0]] + DropIndex(rows[1..], i, offset + 1)
  }

  function RemoveMed(rows: seq<MedicationInput>, i: nat): seq<MedicationInput> {
    DropIndex(rows, i, 0)
  }

  lemma {:induction false} DropIndexSlices(rows: seq<MedicationInput>, i: nat, offset: nat)
    requires offset <= i
    ensures i - offset < |rows| ==> DropIndex(rows, i, offset) == rows[..i - offset] + rows[i - offset + 1..]
    ensures i - offset >= |rows| ==> DropIndex(rows, i, offset) == rows
    decreases |rows|
  {
    if rows != [] {
      if offset == i {
        DropIndexUnreached(rows[1..], i, offset + 1);
      } else {
        DropIndexSlices(rows[1..], i, offset + 1);
        if i - offset < |rows| {
          assert rows[..i - offset] == [rows[0]] + rows[1..][..i - offset - 1];
          assert rows[i - offset + 1..] == rows[1..][i - offset..];
        }
      }
    }
  }

  lemma {:induction false} DropIndexUnreached(rows: seq<MedicationInput>, i: nat, offset: nat)
    requires offset > i
    ensures DropIndex(rows, i, offset) == rows
    decreases |rows|
  {
    if rows != [] {
      DropIndexUnreached(rows[1..], i, offset + 1);
    }
  }

  /** Removing row `i` drops exactly that row and keeps the rest in order. */
  lemma RemoveMedDropsRow(rows: seq<MedicationInput>, i: nat)
    requires i < |rows|
    ensures RemoveMed(rows, i) == rows[..i] + rows[i + 1..]
    ensures |RemoveMed(rows, i)| == |rows| - 1
  {
    DropIndexSlices(rows, i, 0);
  }

  predicate Named(m: MedicationInput) {
    !IsBlank(m.name)
  }

  /** `rows.filter((m) => m.name.trim())`: the rows saved are the named ones, in order. */
  function NamedRows(rows: seq<MedicationInput>): (r: seq<MedicationInput>)
    ensures forall m :: m in r <==> m in rows && Named(m)
    ensures forall j :: 0 <= j < |r| ==> Named(r[j])
    ensures var ks := KeptPositions(rows, (m: MedicationInput) => Named(m));
      |r| == |ks| && forall k :: 0 <= k < |r| ==> r[k] == rows[ks[k]]
  {
    FilterAtKeptPositions(rows, (m: MedicationInput) => Named(m));
    Filter(rows, (m: MedicationInput) => Named(m))
  }

  /** Filtering the saved rows again changes nothing. */
  lemma NamedRowsIdempotent(rows: seq<MedicationInput>)
    ensures NamedRows(NamedRows(rows)) == NamedRows(rows)
  {
    var r := NamedRows(rows);
    FilterKeepsAll(r, (m: MedicationInput) => Named(m));
  }

  /** A freshly added row is never saved until it is given a name. */
  lemma AddedRowNotSaved(rows: seq<MedicationInput>)
    ensures NamedRows(AddMed(rows)) == NamedRows(rows)
  {
    FilterAppend(rows, [EmptyMed()], (m: MedicationInput) => Named(m));
  }
}

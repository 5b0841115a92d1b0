/** The lines of a prescription's PDF and where they are drawn: each line is
    a text and the y coordinate it is written at. Fonts, the x coordinate
    (always 10) and the rendering itself are not part of the model. */
module PrescriptionPdf {
  import opened Text
  import opened Records

  /** A drawn line: its text and its y coordinate. */
  type Line = (string, int)

  /** " - x" when the field is given and non-empty, else nothing. */
  function Part(field: Option<string>): string {
    if Truthy(field) then Dash + field.value else ""
  }

  const Dash := " - "
  const TitleLabel := "Prescription - "
  const PatientLabel := "Patient ID: "
  const ConsultationLabel := "Consultation ID: "
  const NotesLabel := "   Notes: "
  const DoctorNotesTitle := "Doctor notes:"
  const Dot := ". "

  /** "i. name", then the dosage, frequency and duration that are given, in
      that order; `number` is the 1-based position. */
  function MedicationLine(number: nat, m: Medication): string {
    NatToString(number) + Dot + m.name + Part(m.dosage) + Part(m.frequency) + Part(m.duration)
  }

  /** Each of four pieces after a prefix is contained in the whole. */
  lemma FourParts(n: string, x: string, a: string, b: string, c: string)
    ensures Contains(n + x + a + b + c, x)
    ensures Contains(n + x + a + b + c, a)
    ensures Contains(n + x + a + b + c, b)
    ensures Contains(n + x + a + b + c, c)
  {
    var s := n + x + a + b + c;
    assert s == n + x + (a + b + c);
    ContainsMiddle(n, x, a + b + c);
    assert s == (n + x) + a + (b + c);
    ContainsMiddle(n + x, a, b + c);
    assert s == (n + x + a) + b + c;
    ContainsMiddle(n + x + a, b, c);
    assert s == (n + x + a + b) + c + [];
    ContainsMiddle(n + x + a + b, c, []);
  }

  /** The line starts with the position and the name, holds each given
      field after " - ", and carries the given fields in the order dosage,
      frequency, duration: with none given it is only the position and the
      name, with one given it is that field appended, with all three given
      they follow in that order. */
  lemma MedicationLineParts(number: nat, m: Medication)
    ensures var head := NatToString(number) + Dot + m.name;
            |head| <= |MedicationLine(number, m)| && MedicationLine(number, m)[..|head|] == head
    ensures Contains(MedicationLine(number, m), m.name)
    ensures Truthy(m.dosage) ==> Contains(MedicationLine(number, m), Dash + m.dosage.value)
    ensures Truthy(m.frequency) ==> Contains(MedicationLine(number, m), Dash + m.frequency.value)
    ensures Truthy(m.duration) ==> Contains(MedicationLine(number, m), Dash + m.duration.value)
    ensures !Truthy(m.dosage) && !Truthy(m.frequency) && !Truthy(m.duration) ==>
              MedicationLine(number, m) == NatToString(number) + Dot + m.name
    ensures Truthy(m.dosage) && !Truthy(m.frequency) && !Truthy(m.duration) ==>
              MedicationLine(number, m) == NatToString(number) + Dot + m.name + Dash + m.dosage.value
    ensures !Truthy(m.dosage) && Truthy(m.frequency) && !Truthy(m.duration) ==>
              MedicationLine(number, m) == NatToString(number) + Dot + m.name + Dash + m.frequency.value
    ensures !Truthy(m.dosage) && !Truthy(m.frequency) && Truthy(m.duration) ==>
              MedicationLine(number, m) == NatToString(number) + Dot + m.name + Dash + m.duration.value
    ensures Truthy(m.dosage) && Truthy(m.frequency) && Truthy(m.duration) ==>
              MedicationLine(number, m) == NatToString(number) + Dot + m.name + Dash + m.dosage.value +
                                           Dash + m.frequency.value + Dash + m.duration.value
  {
    var head := NatToString(number) + Dot + m.name;
    assert MedicationLine(number, m) == head + Part(m.dosage) + Part(m.frequency) + Part(m.duration);
    FieldsInOrder(head, m.dosage, m.frequency, m.duration);
    FourParts(NatToString(number) + Dot, m.name, Part(m.dosage), Part(m.frequency), Part(m.duration));
  }

  /** The given fields follow a head in their order, each after " - ". */
  lemma FieldsInOrder(head: string, a: Option<string>, b: Option<string>, c: Option<string>)
    ensures var line := head + Part(a) + Part(b) + Part(c);
            |head| <= |line| && line[..|head|] == head
    ensures !Truthy(a) && !Truthy(b) && !Truthy(c) ==> head + Part(a) + Part(b) + Part(c) == head
    ensures Truthy(a) && !Truthy(b) && !Truthy(c) ==> head + Part(a) + Part(b) + Part(c) == head + Dash + a.value
    ensures !Truthy(a) && Truthy(b) && !Truthy(c) ==> head + Part(a) + Part(b) + Part(c) == head + Dash + b.value
    ensures !Truthy(a) && !Truthy(b) && Truthy(c) ==> head + Part(a) + Part(b) + Part(c) == head + Dash + c.value
    ensures Truthy(a) && Truthy(b) && Truthy(c) ==>
              head + Part(a) + Part(b) + Part(c) == head + Dash + a.value + Dash + b.value + Dash + c.value
  {
    var pa, pb, pc := Part(a), Part(b), Part(c);
    var line := head + pa + pb + pc;
    Appended(head, pa + pb + pc);
    Grouped(head, pa, pb, pc);
    if Truthy(a) && !Truthy(b) && !Truthy(c) {
      assert pa + pb + pc == Dash + a.value;
    }
    if !Truthy(a) && Truthy(b) && !Truthy(c) {
      assert pa + pb + pc == Dash + b.value;
    }
    if !Truthy(a) && !Truthy(b) && Truthy(c) {
      assert pa + pb + pc == Dash + c.value;
    }
  }

  lemma Grouped(h: string, a: string, b: string, c: string)
    ensures h + a + b + c == h + (a + b + c)
  {
  }

  /** A text is a prefix of itself followed by anything. */
  lemma Appended(head: string, rest: string)
    ensures (head + rest)[..|head|] == head
  {
  }

  /** The lines one medication adds when its first line is at `y`: itself,
      then its notes 8 below when it has notes. */
  function MedicationBlock(number: nat, m: Medication, y: int): seq<Line> {
    [(MedicationLine(number, m), y)] + (if Truthy(m.notes) then [(NotesLabel + m.notes.value, y + 8)] else [])
  }

  /** How far one medication moves the cursor: 8, and 8 more for notes. */
  function Advance(m: Medication): (r: int)
    ensures r == 8 || r == 16
  {
    if Truthy(m.notes) then 16 else 8
  }

  /** The cursor after the first `k` medications, starting at `y`. */
  function CursorAfter(meds: seq<Medication>, k: nat, y: int): (r: int)
    requires k <= |meds|
    ensures y + 8 * k <= r <= y + 16 * k
    decreases k
  {
    if k == 0 then y else CursorAfter(meds, k - 1, y) + Advance(meds[k - 1])
  }

  /** The lines of the first `k` medications, starting at `y`. */
  function MedicationLines(meds: seq<Medication>, k: nat, y: int): (r: seq<Line>)
    requires k <= |meds|
    ensures k <= |r| <= 2 * k
    decreases k
  {
    if k == 0 then [] else MedicationLines(meds, k - 1, y) + MedicationBlock(k, meds[k - 1], CursorAfter(meds, k - 1, y))
  }

  const TopOfList := 54

  /** The title at y = 20 and the patient and consultation ids at 32 and 40. */
  function Header(id: string, patientId: string, consultationId: string): seq<Line> {
    [(TitleLabel + id, 20), (PatientLabel + patientId, 32), (ConsultationLabel + consultationId, 40)]
  }

  /** One more medication appends its block at the cursor and advances it. */
  lemma MedicationStep(meds: seq<Medication>, k: nat, y: int)
    requires k < |meds|
    ensures MedicationLines(meds, k + 1, y) == MedicationLines(meds, k, y) + MedicationBlock(k + 1, meds[k], CursorAfter(meds, k, y))
    ensures CursorAfter(meds, k + 1, y) == CursorAfter(meds, k, y) + Advance(meds[k])
  {
  }

  /** The whole page: title, patient and consultation, the medications from
      y = 54 down, then the doctor's notes 4 and 12 below the cursor when
      there are instructions. */
  function Layout(id: string, patientId: string, consultationId: string,
                  meds: seq<Medication>, instructions: Option<string>): seq<Line>
  {
    var y := CursorAfter(meds, |meds|, TopOfList);
    Header(id, patientId, consultationId)
    + MedicationLines(meds, |meds|, TopOfList)
    + DoctorNotes(instructions, y)
  }

  /** The doctor's notes 4 and 12 below the cursor, when there are
      instructions. */
  function DoctorNotes(instructions: Option<string>, y: int): seq<Line> {
    if Truthy(instructions) then [(DoctorNotesTitle, y + 4), (instructions.value, y + 12)] else []
  }

  /** Draws the page the way the handler does: a cursor advanced by a loop
      over the medications. */
  method DrawPrescription(id: string, patientId: string, consultationId: string,
                          meds: seq<Medication>, instructions: Option<string>)
    returns (lines: seq<Line>)
    ensures lines == Layout(id, patientId, consultationId, meds, instructions)
  {
    var header := Header(id, patientId, consultationId);
    lines := header;
    var y := TopOfList;
    var idx := 0;
    while idx < |meds|
      invariant 0 <= idx <= |meds|
      invariant y == CursorAfter(meds, idx, TopOfList)
      invariant lines == header + MedicationLines(meds, idx, TopOfList)
    {
      ghost var before, start := lines, y;
      lines, y := DrawMedication(idx + 1, meds[idx], lines, y);
      DrawStep(header, meds, idx, before, start, lines, y);
      idx := idx + 1;
    }
    ghost var body := lines;
    if Truthy(instructions) {
      lines := lines + [(DoctorNotesTitle, y + 4)];
      lines := lines + [(instructions.value, y + 12)];
    }
    NotesAppended(body, instructions, y, lines);
  }

  /** One pass of the drawing loop: the medication's line at the cursor,
      8 down, then its notes and 8 more when it has notes. */
  method DrawMedication(number: nat, m: Medication, lines: seq<Line>, y: int) returns (lines': seq<Line>, y': int)
    ensures lines' == lines + MedicationBlock(number, m, y) && y' == y + Advance(m)
  {
    lines' := lines + [(MedicationLine(number, m), y)];
    y' := y + 8;
    if Truthy(m.notes) {
      lines' := lines' + [(NotesLabel + m.notes.value, y')];
      y' := y' + 8;
    }
    BlockAppended(lines, number, m, y, lines', y');
  }

  /** One pass of the drawing loop keeps the loop's picture: the header, the
      lines of the medications drawn so far, and the cursor after them. */
  lemma DrawStep(header: seq<Line>, meds: seq<Medication>, idx: nat, before: seq<Line>, y: int, after: seq<Line>, y': int)
    requires idx < |meds|
    requires before == header + MedicationLines(meds, idx, TopOfList) && y == CursorAfter(meds, idx, TopOfList)
    requires after == before + MedicationBlock(idx + 1, meds[idx], y) && y' == y + Advance(meds[idx])
    ensures after == header + MedicationLines(meds, idx + 1, TopOfList) && y' == CursorAfter(meds, idx + 1, TopOfList)
  {
    MedicationStep(meds, idx, TopOfList);
    Regroup(header, MedicationLines(meds, idx, TopOfList), MedicationBlock(idx + 1, meds[idx], y));
  }

  lemma Regroup(a: seq<Line>, b: seq<Line>, c: seq<Line>)
    ensures (a + b) + c == a + (b + c)
  {
  }

  /** The closing `if` appends exactly the doctor's notes. */
  lemma NotesAppended(body: seq<Line>, instructions: Option<string>, y: int, after: seq<Line>)
    requires Truthy(instructions) ==> after == body + [(DoctorNotesTitle, y + 4)] + [(instructions.value, y + 12)]
    requires !Truthy(instructions) ==> after == body
    ensures after == body + DoctorNotes(instructions, y)
  {
  }

  /** What one pass of the drawing loop appends and where it leaves the
      cursor. */
  lemma BlockAppended(before: seq<Line>, number: nat, m: Medication, y: int, after: seq<Line>, y': int)
    requires Truthy(m.notes) ==>
               after == before + [(MedicationLine(number, m), y)] + [(NotesLabel + m.notes.value, y + 8)] && y' == y + 16
    requires !Truthy(m.notes) ==> after == before + [(MedicationLine(number, m), y)] && y' == y + 8
    ensures after == before + MedicationBlock(number, m, y)
    ensures y' == y + Advance(m)
  {
  }

  /** Every medication moves the cursor 8 or 16 down, so the doctor's notes
      come at least 8 per medication below the top of the list, after every
      medication line. */
  lemma LayoutBounds(id: string, patientId: string, consultationId: string,
                     meds: seq<Medication>, instructions: Option<string>)
    ensures |Layout(id, patientId, consultationId, meds, instructions)| >= 3 + |meds|
    ensures Truthy(instructions) ==>
              var page := Layout(id, patientId, consultationId, meds, instructions);
              page[|page| - 2] == (DoctorNotesTitle, CursorAfter(meds, |meds|, TopOfList) + 4) &&
              page[|page| - 1].1 >= TopOfList + 8 * |meds| + 12
  {
    PageBounds(Header(id, patientId, consultationId), meds, instructions);
  }

  /** The same bounds for any header above the medication list. */
  lemma PageBounds(header: seq<Line>, meds: seq<Medication>, instructions: Option<string>)
    ensures var y := CursorAfter(meds, |meds|, TopOfList);
            var page := header + MedicationLines(meds, |meds|, TopOfList) + DoctorNotes(instructions, y);
            |page| >= |header| + |meds| &&
            (Truthy(instructions) ==>
               page[|page| - 2] == (DoctorNotesTitle, y + 4) && page[|page| - 1].1 >= TopOfList + 8 * |meds| + 12)
  {
    NotesAtEnd(header + MedicationLines(meds, |meds|, TopOfList), instructions, CursorAfter(meds, |meds|, TopOfList));
  }

  /** The doctor's notes, when drawn, are the last two lines of the page. */
  lemma NotesAtEnd(body: seq<Line>, instructions: Option<string>, y: int)
    ensures |body + DoctorNotes(instructions, y)| >= |body|
    ensures Truthy(instructions) ==>
              var page := body + DoctorNotes(instructions, y);
              page[|page| - 2] == (DoctorNotesTitle, y + 4) && page[|page| - 1].1 == y + 12
  {
  }
}

/** The tenant-scoped query helper: for a clinic id it builds the arguments of
    the ORM calls on four tables. Rows and filters are field-to-value maps;
    a filter holds of a row when every field it names has that value. The
    caller's own `where`, when present, replaces the clinic filter, because
    the caller's arguments are spread after the merged one. */
module Scoping {
  import opened Text

  type Row = map<string, string>
  type Filter = map<string, string>

  /** The tables the helper wraps and what it offers on each. */
  datatype Table = PatientTable | AppointmentTable | ServiceTable | InvoiceTable

  datatype Operation = FindMany | FindUnique | Create | Update | Delete

  predicate Offers(t: Table, op: Operation) {
    match t
    case PatientTable => true
    case AppointmentTable => op in {FindMany, Create, Update}
    case ServiceTable => op in {FindMany, Create}
    case InvoiceTable => op in {FindMany, Create}
  }

  /** The `where` key of the caller's arguments: left out, given as
      `undefined`, or given as a filter. */
  datatype WhereArg = NoWhere | UndefinedWhere | Where(filter: Filter)

  /** A scoped helper call either throws for a missing clinic id or yields
      the arguments it hands to the ORM. */
  datatype Scoped<T> = MissingClinic | Built(value: T)

  function OwnFilter(w: WhereArg): Filter {
    match w
    case Where(f) => f
    case _ => map[]
  }

  /** The `where` a read (`findMany`, or `findUnique` run as `findFirst`)
      sends: `{clinicId, ...args.where}` first, then replaced by the
      caller's `where` when the caller passed that key at all; None is no
      filter. */
  function ReadWhere(clinicId: string, args: WhereArg): (r: Scoped<Option<Filter>>)
    ensures clinicId == "" <==> r == MissingClinic
    ensures clinicId != "" && args == NoWhere ==> r == Built(Some(map["clinicId" := clinicId]))
    ensures clinicId != "" && args.Where? ==> r == Built(Some(args.filter))
    ensures clinicId != "" && args == UndefinedWhere ==> r == Built(None)
  {
    if clinicId == "" then MissingClinic
    else
      var merged := map["clinicId" := clinicId] + OwnFilter(args);
      match args
      case NoWhere =>
        assert merged == map["clinicId" := clinicId];
        Built(Some(merged))
      case UndefinedWhere => Built(None)
      case Where(f) => Built(Some(f))
  }

  predicate Holds(filter: Option<Filter>, row: Row) {
    filter.None? || forall k :: k in filter.value ==> k in row && row[k] == filter.value[k]
  }

  /** The rows a scoped `findMany` returns, in table order. */
  function FindManyRows(rows: seq<Row>, filter: Option<Filter>): (r: seq<Row>)
    ensures forall x :: x in r <==> x in rows && Holds(filter, x)
    ensures |r| <= |rows|
  {
    if rows == [] then []
    else
      var rest := FindManyRows(rows[1..], filter);
      assert forall x :: x in rows <==> x == rows[0] || x in rows[1..];
      if Holds(filter, rows[0]) then [rows[0]] + rest else rest
  }

  /** The first row a `findFirst` returns. */
  function FindFirstRow(rows: seq<Row>, filter: Option<Filter>): (r: Option<Row>)
    ensures r.Some? ==> r.value in rows && Holds(filter, r.value)
    ensures r.None? <==> forall x :: x in rows ==> !Holds(filter, x)
  {
    if rows == [] then None
    else if Holds(filter, rows[0]) then Some(rows[0])
    else
      assert forall x :: x in rows ==> x == rows[0] || x in rows[1..];
      FindFirstRow(rows[1..], filter)
  }

  /** Without a `where` of its own, a scoped read sees only the clinic's rows. */
  lemma {:induction false} NoWhereStaysInClinic(rows: seq<Row>, clinicId: string)
    requires clinicId != ""
    ensures ReadWhere(clinicId, NoWhere).Built?
    ensures forall x :: x in FindManyRows(rows, ReadWhere(clinicId, NoWhere).value) ==>
              "clinicId" in x && x["clinicId"] == clinicId
  {
    var f := ReadWhere(clinicId, NoWhere).value;
    assert f == Some(map["clinicId" := clinicId]);
    forall x | x in FindManyRows(rows, f)
      ensures "clinicId" in x && x["clinicId"] == clinicId
    {
      assert Holds(f, x);
      assert "clinicId" in f.value;
    }
  }

  /** A caller `where` that does not name the clinic lets other clinics' rows
      through: a row of clinic `other` that satisfies the caller's filter is
      returned to clinic `clinicId`. */
  lemma CallerWhereDropsClinic(clinicId: string, other: string, filter: Filter, row: Row)
    requires clinicId != "" && "clinicId" !in filter
    requires Holds(Some(filter), row) && "clinicId" in row && row["clinicId"] == other
    ensures row in FindManyRows([row], ReadWhere(clinicId, Where(filter)).value)
  {
  }

  /** `create`: the data with the clinic id written last, so it overrides
      any clinic id the caller put in the data. */
  function CreateData(clinicId: string, data: Row): (r: Scoped<Row>)
    ensures clinicId == "" <==> r == MissingClinic
    ensures r.Built? ==> "clinicId" in r.value && r.value["clinicId"] == clinicId
    ensures r.Built? ==> r.value.Keys == data.Keys + {"clinicId"}
    ensures r.Built? ==> forall k :: k in data && k != "clinicId" ==> r.value[k] == data[k]
  {
    if clinicId == "" then MissingClinic else Built(data + map["clinicId" := clinicId])
  }

  /** `update` and `delete` filter on the id alone: the clinic is not
      checked, so a row of any clinic with that id is hit. */
  function ByIdWhere(clinicId: string, id: string): (r: Scoped<Filter>)
    ensures clinicId == "" <==> r == MissingClinic
    ensures r.Built? ==> r.value.Keys == {"id"} && r.value["id"] == id
  {
    if clinicId == "" then MissingClinic else Built(map["id" := id])
  }

  lemma ByIdIgnoresClinic(clinicId: string, row: Row)
    requires clinicId != "" && "id" in row
    ensures Holds(Some(ByIdWhere(clinicId, row["id"]).value), row)
  {
  }
}

/** The new-invoice page: the editable item list and the client-side check
    that runs before the create request is sent. Item fields are the text
    the inputs hold; `Number(...)` turns them into numbers on submit. */
module BillingForm {
  import opened Text

  datatype FormItem = FormItem(description: string, quantity: string, unitPrice: string)

  /** The field an input edits. */
  datatype ItemField = Description | Quantity | UnitPrice

  /** A fresh row: no description, quantity "1", price "0.00". */
  const DefaultItem := FormItem("", "1", "0.00")

  /** The list the page starts with. */
  const InitialItems := [DefaultItem]

  function SetField(it: FormItem, key: ItemField, value: string): (r: FormItem)
    ensures key == Description ==> r == it.(description := value)
    ensures key == Quantity ==> r == it.(quantity := value)
    ensures key == UnitPrice ==> r == it.(unitPrice := value)
  {
    match key
    case Description => it.(description := value)
    case Quantity => it.(quantity := value)
    case UnitPrice => it.(unitPrice := value)
  }

  function Field(it: FormItem, key: ItemField): string {
    match key
    case Description => it.description
    case Quantity => it.quantity
    case UnitPrice => it.unitPrice
  }

  /** `updateItem(i, key, value)`: field `key` of row `i` becomes `value`;
      every other row and field stays, and an index outside the list changes
      nothing. */
  function UpdateItem(items: seq<FormItem>, i: int, key: ItemField, value: string): (r: seq<FormItem>)
    ensures |r| == |items|
    ensures 0 <= i < |items| ==>
              (Field(r[i], key) == value && forall k :: k != key ==> Field(r[i], k) == Field(items[i], k))
    ensures forall j :: 0 <= j < |items| && j != i ==> r[j] == items[j]
  {
    seq(|items|, j requires 0 <= j < |items| => if j == i then SetField(items[j], key, value) else items[j])
  }

  /** `addItem()`: one default row appended. */
  function AddItem(items: seq<FormItem>): (r: seq<FormItem>)
    ensures |r| == |items| + 1 && r[..|items|] == items && r[|items|] == DefaultItem
  {
    items + [DefaultItem]
  }

  /** `removeItem(i)`: row `i` dropped and the rest kept in order; an index
      outside the list changes nothing. */
  function RemoveItem(items: seq<FormItem>, i: int): (r: seq<FormItem>)
    ensures 0 <= i < |items| ==>
              (|r| == |items| - 1 &&
               (forall j :: 0 <= j < i ==> r[j] == items[j]) &&
               (forall j :: i <= j < |r| ==> r[j] == items[j + 1]))
    ensures !(0 <= i < |items|) ==> r == items
  {
    if 0 <= i < |items| then items[..i] + items[i + 1..] else items
  }

  /** Removing the row just added gives the list back. */
  lemma RemoveAdded(items: seq<FormItem>)
    ensures RemoveItem(AddItem(items), |items|) == items
  {
    assert AddItem(items)[..|items|] == items;
  }

  /** A later edit of the same field wins over an earlier one. */
  lemma UpdateTwice(items: seq<FormItem>, i: int, key: ItemField, v: string, w: string)
    ensures UpdateItem(UpdateItem(items, i, key, v), i, key, w) == UpdateItem(items, i, key, w)
  {
    var a := UpdateItem(UpdateItem(items, i, key, v), i, key, w);
    var b := UpdateItem(items, i, key, w);
    forall j | 0 <= j < |items|
      ensures a[j] == b[j]
    {
      if j == i {
        match key
        case Description =>
        case Quantity =>
        case UnitPrice =>
      }
    }
  }

  /** Editing a row and then removing it is the same as only removing it. */
  lemma UpdateThenRemove(items: seq<FormItem>, i: int, key: ItemField, v: string)
    requires 0 <= i < |items|
    ensures RemoveItem(UpdateItem(items, i, key, v), i) == RemoveItem(items, i)
  {
  }

  // ---------------------------------------------------------------------
  // Submit

  /** An item after `Number(...)`: None stands for NaN. */
  datatype ParsedItem = ParsedItem(description: string, quantity: Option<real>, unitPrice: Option<real>)

  function ParseItem(it: FormItem): ParsedItem {
    ParsedItem(it.description, JsNumber(it.quantity), JsNumber(it.unitPrice))
  }

  /** `items.map(...)` with `Number` on both numeric fields. */
  function ParseItems(items: seq<FormItem>): (r: seq<ParsedItem>)
    ensures |r| == |items| && forall j :: 0 <= j < |items| ==> r[j] == ParseItem(items[j])
  {
    seq(|items|, j requires 0 <= j < |items| => ParseItem(items[j]))
  }

  /** The payload posted to the invoices API; `tax` is always 0. */
  datatype Payload = Payload(patientId: string, items: seq<ParsedItem>, tax: int, notes: string)

  /** The first failing rule, in the order the schema checks them: the
      patient, then the list, then each item's description, quantity and
      unit price. */
  datatype Issue =
    | PatientMissing
    | NoItems
    | DescriptionEmpty(index: nat)
    | QuantityNotNumber(index: nat)
    | QuantityNotInteger(index: nat)
    | QuantityBelowOne(index: nat)
    | PriceNotNumber(index: nat)
    | PriceNegative(index: nat)

  function ItemIssue(it: ParsedItem, index: nat): (r: Option<Issue>)
    ensures r.None? <==>
              (it.description != "" && it.quantity.Some? &&
               it.quantity.value.Floor as real == it.quantity.value && it.quantity.value >= 1.0 &&
               it.unitPrice.Some? && it.unitPrice.value >= 0.0)
  {
    if it.description == "" then Some(DescriptionEmpty(index))
    else if it.quantity.None? then Some(QuantityNotNumber(index))
    else if it.quantity.value.Floor as real != it.quantity.value then Some(QuantityNotInteger(index))
    else if it.quantity.value < 1.0 then Some(QuantityBelowOne(index))
    else if it.unitPrice.None? then Some(PriceNotNumber(index))
    else if it.unitPrice.value < 0.0 then Some(PriceNegative(index))
    else None
  }

  predicate ItemOk(it: ParsedItem) {
    ItemIssue(it, 0).None?
  }

  /** The first issue among the items from position `from` on. */
  function FirstItemIssue(items: seq<ParsedItem>, from: nat): (r: Option<Issue>)
    requires from <= |items|
    ensures r.None? <==> forall j :: from <= j < |items| ==> ItemOk(items[j])
    ensures r.Some? ==> exists j :: from <= j < |items| && r == ItemIssue(items[j], j) &&
                                    forall k :: from <= k < j ==> ItemOk(items[k])
    decreases |items| - from
  {
    if from == |items| then None
    else
      var here := ItemIssue(items[from], from);
      if here.Some? then here else FirstItemIssue(items, from + 1)
  }

  datatype Outcome = Send(payload: Payload) | ShowError(issue: Issue)

  /** `handleSubmit`: the payload is built from the form and posted only
      when every rule holds; otherwise the first failing rule is shown and
      nothing is sent. */
  method HandleSubmit(patientId: string, notes: string, items: seq<FormItem>) returns (r: Outcome)
    ensures r.Send? <==> patientId != "" && |items| >= 1 && forall j :: 0 <= j < |items| ==> ItemOk(ParseItem(items[j]))
    ensures r.Send? ==>
              (r.payload.patientId == patientId && r.payload.tax == 0 && r.payload.notes == notes &&
               |r.payload.items| == |items| &&
               forall j :: 0 <= j < |items| ==> r.payload.items[j] == ParseItem(items[j]))
    ensures patientId == "" ==> r == ShowError(PatientMissing)
    ensures patientId != "" && items == [] ==> r == ShowError(NoItems)
    ensures patientId != "" && items != [] && FirstItemIssue(ParseItems(items), 0).Some? ==>
              r == ShowError(FirstItemIssue(ParseItems(items), 0).value)
  {
    var parsed := ParseItems(items);
    var payload := Payload(patientId, parsed, 0, notes);
    if patientId == "" {
      return ShowError(PatientMissing);
    }
    if |parsed| == 0 {
      return ShowError(NoItems);
    }
    var issue := FirstItemIssue(parsed, 0);
    if issue.Some? {
      return ShowError(issue.value);
    }
    r := Send(payload);
  }

  /** The page's first row, untouched, is refused for its empty
      description. */
  lemma InitialItemsRefused()
    ensures FirstItemIssue([ParseItem(DefaultItem)], 0) == Some(DescriptionEmpty(0))
  {
  }
}

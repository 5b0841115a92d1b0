/** Invoices and payments on the server: the totals and numbering of a new
    invoice, the amount charged for it, and the status changes the confirm
    endpoint and the payment webhook make. Money is integer cents. */
module Billing {
  import opened Text
  import opened Records

  // ---------------------------------------------------------------------
  // A new invoice

  /** One item of the create request; `quantity` is any JSON number. */
  datatype ItemInput = ItemInput(description: Option<string>, quantity: real, unitPrice: int, serviceId: Option<string>)

  datatype InvoiceInput = InvoiceInput(patientId: Option<string>, items: seq<ItemInput>, tax: Option<int>, notes: Option<string>)

  /** The item schema: a description, an integer quantity of at least one
      and a non-negative unit price. */
  predicate ValidItem(it: ItemInput) {
    it.description.Some? && it.quantity.Floor as real == it.quantity && it.quantity >= 1.0 && it.unitPrice >= 0
  }

  /** The invoice schema: a patient, at least one valid item and a
      non-negative tax when one is given. */
  predicate ValidInvoice(input: InvoiceInput) {
    input.patientId.Some? && |input.items| >= 1 &&
    (forall i :: 0 <= i < |input.items| ==> ValidItem(input.items[i])) &&
    (input.tax.None? || input.tax.value >= 0)
  }

  function ToLineItem(it: ItemInput): (r: LineItem)
    requires ValidItem(it)
    ensures r.quantity >= 1 && r.unitPrice >= 0 && r.quantity as real == it.quantity
  {
    LineItem(it.description.value, it.quantity.Floor, it.unitPrice, it.serviceId)
  }

  function ToLineItems(items: seq<ItemInput>): (r: seq<LineItem>)
    requires forall i :: 0 <= i < |items| ==> ValidItem(items[i])
    ensures |r| == |items|
    ensures forall i :: 0 <= i < |r| ==> r[i] == ToLineItem(items[i])
  {
    seq(|items|, i requires 0 <= i < |items| => ToLineItem(items[i]))
  }

  /** `items.reduce((s, it) => s + it.quantity * it.unitPrice, 0)`. */
  function Subtotal(items: seq<LineItem>): int {
    if items == [] then 0
    else Subtotal(items[..|items| - 1]) + items[|items| - 1].quantity * items[|items| - 1].unitPrice
  }

  /** The subtotal of two lists run one after the other is the sum of their
      subtotals. */
  lemma {:induction false} SubtotalAppend(a: seq<LineItem>, b: seq<LineItem>)
    ensures Subtotal(a + b) == Subtotal(a) + Subtotal(b)
    decreases |b|
  {
    if b == [] {
      assert a + b == a;
    } else {
      var b' := b[..|b| - 1];
      assert (a + b)[..|a + b| - 1] == a + b';
      SubtotalAppend(a, b');
    }
  }

  /** Items with positive quantities and non-negative prices cost at least
      as much as any one of them. */
  lemma {:induction false} SubtotalBounds(items: seq<LineItem>)
    requires forall i :: 0 <= i < |items| ==> items[i].quantity >= 1 && items[i].unitPrice >= 0
    ensures Subtotal(items) >= 0
    ensures forall i :: 0 <= i < |items| ==> Subtotal(items) >= items[i].unitPrice
  {
    if items != [] {
      var init := items[..|items| - 1];
      SubtotalBounds(init);
      var last := items[|items| - 1];
      assert last.quantity * last.unitPrice >= last.unitPrice by {
        assert (last.quantity - 1) * last.unitPrice >= 0;
      }
      forall i | 0 <= i < |items|
        ensures Subtotal(items) >= items[i].unitPrice
      {
        if i < |items| - 1 {
          assert items[i] == init[i];
        }
      }
    }
  }

  /** The subtotal, the tax (0 when absent) and their sum. */
  function Totals(items: seq<LineItem>, tax: Option<int>): (r: (int, int, int))
    ensures r.0 == Subtotal(items)
    ensures r.1 == (if tax.Some? then tax.value else 0)
    ensures r.2 == r.0 + r.1
  {
    var t := if tax.Some? then tax.value else 0;
    (Subtotal(items), t, Subtotal(items) + t)
  }

  // ---------------------------------------------------------------------
  // Invoice numbers

  /** `String(count + 1).padStart(5, '0')`: at least five digits, reading
      back as count + 1; never truncated. */
  function InvoiceSequence(count: nat): (r: string)
    ensures |r| >= 5 && AllDigits(r)
    ensures DigitsValue(r) == count + 1
  {
    ZeroPadValue(NatToString(count + 1), 5);
    PadStart(NatToString(count + 1), 5, '0')
  }

  /** "INV-" followed by the upper-cased first six characters of the clinic
      id. */
  function InvoicePrefix(clinicId: string): (r: string)
    ensures |r| == 4 + (if |clinicId| < 6 then |clinicId| else 6) && r[..4] == "INV-"
  {
    "INV-" + Upper(clinicId[..if |clinicId| < 6 then |clinicId| else 6])
  }

  /** The number of the clinic's next invoice when it has `count`. */
  function InvoiceNumber(clinicId: string, count: nat): (r: string)
    ensures |r| >= |InvoicePrefix(clinicId)| + 6
    ensures r[..|InvoicePrefix(clinicId)|] == InvoicePrefix(clinicId)
    ensures r[|InvoicePrefix(clinicId)|] == '-'
  {
    InvoicePrefix(clinicId) + "-" + InvoiceSequence(count)
  }

  /** Within a clinic, different counts give different numbers. */
  lemma InvoiceNumberInjective(clinicId: string, a: nat, b: nat)
    requires InvoiceNumber(clinicId, a) == InvoiceNumber(clinicId, b)
    ensures a == b
  {
    var p := InvoicePrefix(clinicId) + "-";
    assert InvoiceNumber(clinicId, a)[|p|..] == InvoiceSequence(a);
    assert InvoiceNumber(clinicId, b)[|p|..] == InvoiceSequence(b);
  }

  /** How many invoices belong to the clinic (`invoice.count({ where: { clinicId } })`). */
  function CountInClinic(invoices: seq<Invoice>, clinicId: string): nat {
    if invoices == [] then 0
    else CountInClinic(invoices[..|invoices| - 1], clinicId) +
         (if invoices[|invoices| - 1].clinicId == clinicId then 1 else 0)
  }

  /** Every invoice carries the number its clinic's count gave it when it was
      created: the state that creating invoices one after another keeps. */
  ghost predicate NumberedInOrder(invoices: seq<Invoice>)
    decreases |invoices|
  {
    invoices == [] ||
    var n := |invoices| - 1;
    NumberedInOrder(invoices[..n]) &&
    invoices[n].number == InvoiceNumber(invoices[n].clinicId, CountInClinic(invoices[..n], invoices[n].clinicId))
  }

  /** Every prefix of a table numbered in order is numbered in order. */
  lemma {:induction false} NumberedPrefix(invoices: seq<Invoice>, k: nat)
    requires NumberedInOrder(invoices) && k <= |invoices|
    ensures NumberedInOrder(invoices[..k])
    decreases |invoices|
  {
    if k < |invoices| {
      var n := |invoices| - 1;
      NumberedPrefix(invoices[..n], k);
      PrefixOfPrefix(invoices, n, k);
    } else {
      assert invoices[..k] == invoices;
    }
  }

  /** In a table numbered in order, each invoice's number is its clinic's
      count over the invoices before it. */
  lemma NumberedAt(invoices: seq<Invoice>, i: nat)
    requires NumberedInOrder(invoices) && i < |invoices|
    ensures invoices[i].number == InvoiceNumber(invoices[i].clinicId, CountInClinic(invoices[..i], invoices[i].clinicId))
  {
    NumberedPrefix(invoices, i + 1);
    PrefixOfPrefix(invoices, i + 1, i);
  }

  lemma PrefixOfPrefix(invoices: seq<Invoice>, n: nat, i: nat)
    requires i <= n <= |invoices|
    ensures i < n ==> invoices[..n][i] == invoices[i]
    ensures invoices[..n][..i] == invoices[..i]
  {
  }

  /** Appending an invoice numbered from the current count keeps the table
      numbered in order. */
  lemma NumberedAppend(invoices: seq<Invoice>, inv: Invoice)
    requires NumberedInOrder(invoices)
    requires inv.number == InvoiceNumber(inv.clinicId, CountInClinic(invoices, inv.clinicId))
    ensures NumberedInOrder(invoices + [inv])
  {
    assert (invoices + [inv])[..|invoices|] == invoices;
  }

  /** An earlier invoice of a clinic is counted in every later prefix. */
  lemma {:induction false} CountGrows(invoices: seq<Invoice>, i: nat, j: nat)
    requires i < j <= |invoices|
    ensures CountInClinic(invoices[..i], invoices[i].clinicId) < CountInClinic(invoices[..j], invoices[i].clinicId)
    decreases j
  {
    var c := invoices[i].clinicId;
    assert invoices[..j][..j - 1] == invoices[..j - 1];
    if j == i + 1 {
    } else {
      CountGrows(invoices, i, j - 1);
    }
  }

  /** In a table numbered in order, no two invoices of one clinic share a
      number. */
  lemma NumbersDistinctInClinic(invoices: seq<Invoice>, i: nat, j: nat)
    requires NumberedInOrder(invoices)
    requires i < j < |invoices| && invoices[i].clinicId == invoices[j].clinicId
    ensures invoices[i].number != invoices[j].number
  {
    var c := invoices[i].clinicId;
    NumberedAt(invoices, i);
    NumberedAt(invoices, j);
    CountGrows(invoices, i, j);
    if invoices[i].number == invoices[j].number {
      InvoiceNumberInjective(c, CountInClinic(invoices[..i], c), CountInClinic(invoices[..j], c));
    }
  }

  // ---------------------------------------------------------------------
  // Charging

  /** `Math.round(x)`: the nearest integer, halves rounded up. */
  function Round(x: real): int {
    (x + 0.5).Floor
  }

  /** `Math.round((invoice.total || 0) * 100)` with the total held in dollars
      (cents / 100): the cents again. */
  function ChargeAmount(totalCents: int): (r: int)
    ensures r == totalCents
  {
    Round((totalCents as real / 100.0) * 100.0)
  }

  // ---------------------------------------------------------------------
  // Status changes

  /** The row update `payment.update({ where: { id }, data: { status } })`. */
  function WithPaymentStatus(payments: seq<Payment>, id: string, status: PaymentStatus): (r: seq<Payment>)
    ensures |r| == |payments|
    ensures forall i :: 0 <= i < |r| ==>
              r[i] == if payments[i].id == id then payments[i].(status := status) else payments[i]
  {
    seq(|payments|, i requires 0 <= i < |payments| =>
      if payments[i].id == id then payments[i].(status := status) else payments[i])
  }

  /** The webhook's update: COMPLETED and paid at `now`. */
  function CompletedAt(payments: seq<Payment>, id: string, now: int): (r: seq<Payment>)
    ensures |r| == |payments|
    ensures forall i :: 0 <= i < |r| ==>
              r[i] == if payments[i].id == id then payments[i].(status := PaymentCompleted, paidAt := Some(now)) else payments[i]
  {
    seq(|payments|, i requires 0 <= i < |payments| =>
      if payments[i].id == id then payments[i].(status := PaymentCompleted, paidAt := Some(now)) else payments[i])
  }

  function WithInvoiceStatus(invoices: seq<Invoice>, id: string, status: InvoiceStatus): (r: seq<Invoice>)
    ensures |r| == |invoices|
    ensures forall i :: 0 <= i < |r| ==>
              r[i] == if invoices[i].id == id then invoices[i].(status := status) else invoices[i]
  {
    seq(|invoices|, i requires 0 <= i < |invoices| =>
      if invoices[i].id == id then invoices[i].(status := status) else invoices[i])
  }

  function PaymentByIntent(payments: seq<Payment>, intentId: string): (r: Option<Payment>)
    ensures r.Some? ==> r.value in payments && r.value.intentId == intentId
    ensures r.None? <==> forall p :: p in payments ==> p.intentId != intentId
  {
    if payments == [] then None
    else if payments[0].intentId == intentId then Some(payments[0])
    else
      assert forall p :: p in payments ==> p == payments[0] || p in payments[1..];
      PaymentByIntent(payments[1..], intentId)
  }

  /** The confirm endpoint's lookup: intent id and clinic both match. */
  function PaymentByIntentInClinic(payments: seq<Payment>, intentId: string, clinicId: string): (r: Option<Payment>)
    ensures r.Some? ==> r.value in payments && r.value.intentId == intentId && r.value.clinicId == clinicId
    ensures r.None? <==> forall p :: p in payments ==> p.intentId != intentId || p.clinicId != clinicId
  {
    if payments == [] then None
    else if payments[0].intentId == intentId && payments[0].clinicId == clinicId then Some(payments[0])
    else
      assert forall p :: p in payments ==> p == payments[0] || p in payments[1..];
      PaymentByIntentInClinic(payments[1..], intentId, clinicId)
  }

  function InvoiceById(invoices: seq<Invoice>, id: string): (r: Option<Invoice>)
    ensures r.Some? ==> r.value in invoices && r.value.id == id
    ensures r.None? <==> forall v :: v in invoices ==> v.id != id
  {
    if invoices == [] then None
    else if invoices[0].id == id then Some(invoices[0])
    else
      assert forall v :: v in invoices ==> v == invoices[0] || v in invoices[1..];
      InvoiceById(invoices[1..], id)
  }

  /** The sum of the amounts of the invoice's COMPLETED payments. */
  function PaidSum(payments: seq<Payment>, invoiceId: string): int {
    if payments == [] then 0
    else
      var p := payments[|payments| - 1];
      PaidSum(payments[..|payments| - 1], invoiceId) +
        (if p.invoiceId == invoiceId && p.status == PaymentCompleted then p.amount else 0)
  }

  /** Two payment tables that agree on invoice, status and amount row by row
      have the same paid sums. */
  lemma {:induction false} PaidSumCongruent(a: seq<Payment>, b: seq<Payment>, invoiceId: string)
    requires |a| == |b|
    requires forall i :: 0 <= i < |a| ==>
               a[i].invoiceId == b[i].invoiceId && a[i].status == b[i].status && a[i].amount == b[i].amount
    ensures PaidSum(a, invoiceId) == PaidSum(b, invoiceId)
  {
    if a != [] {
      PaidSumCongruent(a[..|a| - 1], b[..|b| - 1], invoiceId);
    }
  }

  /** The webhook's rule: PAID once the completed payments cover the total,
      PARTIALLY_PAID while something but not all is paid, else unchanged. */
  function NewInvoiceStatus(paidSum: int, total: int, current: InvoiceStatus): (r: InvoiceStatus)
    ensures paidSum >= total ==> r == Paid
    ensures 0 < paidSum < total ==> r == PartiallyPaid
    ensures paidSum <= 0 && paidSum < total ==> r == current
  {
    if paidSum >= total then Paid else if paidSum > 0 then PartiallyPaid else current
  }

  /** Recomputing from the same paid sum changes nothing further. */
  lemma NewInvoiceStatusIdempotent(paidSum: int, total: int, current: InvoiceStatus)
    ensures NewInvoiceStatus(paidSum, total, NewInvoiceStatus(paidSum, total, current))
            == NewInvoiceStatus(paidSum, total, current)
  {
  }

  /** What a `payment_intent.succeeded` event does to a payment `p` that was
      found for its intent: the payment is completed at `now`, then its
      invoice, when it exists, is recomputed from the completed payments. */
  function Succeeded(payments: seq<Payment>, invoices: seq<Invoice>, p: Payment, now: int)
    : (r: (seq<Payment>, seq<Invoice>))
    ensures r.0 == CompletedAt(payments, p.id, now)
    ensures InvoiceById(invoices, p.invoiceId).None? ==> r.1 == invoices
    ensures InvoiceById(invoices, p.invoiceId).Some? ==>
              var inv := InvoiceById(invoices, p.invoiceId).value;
              r.1 == WithInvoiceStatus(invoices, inv.id,
                       NewInvoiceStatus(PaidSum(r.0, inv.id), inv.total, inv.status))
  {
    var paid := CompletedAt(payments, p.id, now);
    match InvoiceById(invoices, p.invoiceId)
    case None => (paid, invoices)
    case Some(inv) =>
      (paid, WithInvoiceStatus(invoices, inv.id, NewInvoiceStatus(PaidSum(paid, inv.id), inv.total, inv.status)))
  }

  /** Replaying a `succeeded` event leaves every payment status and the
      invoices as the first delivery left them. */
  lemma SucceededReplay(payments: seq<Payment>, invoices: seq<Invoice>, p: Payment, t1: int, t2: int)
    ensures var (ps1, is1) := Succeeded(payments, invoices, p, t1);
            var (ps2, is2) := Succeeded(ps1, is1, p, t2);
            |ps2| == |ps1| && (forall i :: 0 <= i < |ps2| ==> ps2[i].status == ps1[i].status) &&
            is2 == is1
  {
    var (ps1, is1) := Succeeded(payments, invoices, p, t1);
    var (ps2, is2) := Succeeded(ps1, is1, p, t2);
    PaidSumCongruent(ps1, ps2, p.invoiceId);
    match InvoiceById(invoices, p.invoiceId)
    case None =>
      assert forall v :: v in is1 ==> v.id != p.invoiceId;
    case Some(inv) =>
      var s1 := NewInvoiceStatus(PaidSum(ps1, inv.id), inv.total, inv.status);
      LookupAfterStatus(invoices, p.invoiceId, s1);
      NewInvoiceStatusIdempotent(PaidSum(ps1, inv.id), inv.total, inv.status);
      assert is2 == is1;
  }

  /** After a status update by id, looking the id up finds the same row
      with the new status. */
  lemma {:induction false} LookupAfterStatus(invoices: seq<Invoice>, id: string, s: InvoiceStatus)
    requires InvoiceById(invoices, id).Some?
    ensures InvoiceById(WithInvoiceStatus(invoices, id, s), id) == Some(InvoiceById(invoices, id).value.(status := s))
  {
    if invoices[0].id != id {
      assert WithInvoiceStatus(invoices, id, s)[1..] == WithInvoiceStatus(invoices[1..], id, s);
      LookupAfterStatus(invoices[1..], id, s);
    }
  }

  /** The confirm endpoint: the payment COMPLETED and its invoice PAID,
      whatever the amounts. */
  function Confirmed(payments: seq<Payment>, invoices: seq<Invoice>, p: Payment): (r: (seq<Payment>, seq<Invoice>))
    ensures r.0 == WithPaymentStatus(payments, p.id, PaymentCompleted)
    ensures r.1 == WithInvoiceStatus(invoices, p.invoiceId, Paid)
  {
    (WithPaymentStatus(payments, p.id, PaymentCompleted), WithInvoiceStatus(invoices, p.invoiceId, Paid))
  }

  /** Confirming twice leaves the same tables as confirming once. */
  lemma ConfirmTwice(payments: seq<Payment>, invoices: seq<Invoice>, p: Payment)
    ensures var (ps1, is1) := Confirmed(payments, invoices, p);
            Confirmed(ps1, is1, p) == (ps1, is1)
  {
    var (ps1, is1) := Confirmed(payments, invoices, p);
    var (ps2, is2) := Confirmed(ps1, is1, p);
    assert ps2 == ps1;
    assert is2 == is1;
  }

  // ---------------------------------------------------------------------
  // Webhook events

  /** The events the webhook tells apart, with the payment intent each
      carries: a succeeded intent's id, a charge's intent (possibly
      absent), or any other event type. */
  datatype StripeEvent =
    | IntentSucceeded(intentId: string)
    | ChargeRefunded(chargeIntent: Option<string>)
    | DisputeClosed(chargeIntent: Option<string>)
    | OtherEvent(kind: string)

  // ---------------------------------------------------------------------
  // The rows the handlers write

  /** Creating an invoice keeps the table numbered in order. */
  lemma NewInvoiceKeepsNumbering(id: string, clinicId: string, input: InvoiceInput, invoices: seq<Invoice>)
    requires ValidInvoice(input)
    ensures NumberedInOrder(invoices) ==> NumberedInOrder(invoices + [NewInvoice(id, clinicId, input, invoices)])
  {
    if NumberedInOrder(invoices) {
      NumberedAppend(invoices, NewInvoice(id, clinicId, input, invoices));
    }
  }

  /** The invoice a valid request creates: numbered from the clinic's
      current count, PENDING, its total the subtotal plus the tax. */
  function NewInvoice(id: string, clinicId: string, input: InvoiceInput, invoices: seq<Invoice>): (r: Invoice)
    requires ValidInvoice(input)
    ensures r.clinicId == clinicId && r.patientId == input.patientId.value && r.status == InvoicePending
    ensures r.number == InvoiceNumber(clinicId, CountInClinic(invoices, clinicId))
    ensures r.items == ToLineItems(input.items) && r.subtotal == Subtotal(r.items)
    ensures r.tax == (if input.tax.Some? then input.tax.value else 0) && r.total == r.subtotal + r.tax
    ensures 0 <= r.subtotal <= r.total
  {
    var items := ToLineItems(input.items);
    SubtotalBounds(items);
    var (sub, tax, total) := Totals(items, input.tax);
    Invoice(id, clinicId, input.patientId.value, InvoiceNumber(clinicId, CountInClinic(invoices, clinicId)),
            items, sub, tax, total, input.notes, InvoicePending)
  }

  /** The payment a checkout creates: PENDING, by STRIPE, for the whole
      invoice total, under the intent's id. */
  function NewPayment(id: string, clinicId: string, invoice: Invoice, intentId: string): (r: Payment)
    ensures r.status == PaymentPending && r.paymentMethod == "STRIPE" && r.paidAt.None?
    ensures r.amount == invoice.total && r.invoiceId == invoice.id && r.clinicId == clinicId && r.intentId == intentId
  {
    Payment(id, clinicId, invoice.id, invoice.total, "STRIPE", PaymentPending, intentId, None)
  }

  /** Two tables whose rows lie in the same clinics, row by row, count the
      same for every clinic. */
  lemma {:induction false} CountSameClinics(a: seq<Invoice>, b: seq<Invoice>, clinicId: string)
    requires |a| == |b| && forall i :: 0 <= i < |a| ==> a[i].clinicId == b[i].clinicId
    ensures CountInClinic(a, clinicId) == CountInClinic(b, clinicId)
  {
    if a != [] {
      CountSameClinics(a[..|a| - 1], b[..|b| - 1], clinicId);
    }
  }

  lemma SameRowsPrefix(a: seq<Invoice>, b: seq<Invoice>, n: nat)
    requires |a| == |b| && forall i :: 0 <= i < |a| ==> a[i].clinicId == b[i].clinicId && a[i].number == b[i].number
    requires n <= |a|
    ensures forall i :: 0 <= i < n ==> a[..n][i].clinicId == b[..n][i].clinicId && a[..n][i].number == b[..n][i].number
  {
  }

  /** Numbering in order depends only on each row's clinic and number. */
  lemma {:induction false} SameNumbersKeepNumbering(a: seq<Invoice>, b: seq<Invoice>)
    requires |a| == |b| && forall i :: 0 <= i < |a| ==> a[i].clinicId == b[i].clinicId && a[i].number == b[i].number
    requires NumberedInOrder(a)
    ensures NumberedInOrder(b)
    decreases |b|
  {
    if b != [] {
      var n := |b| - 1;
      SameRowsPrefix(a, b, n);
      SameNumbersKeepNumbering(a[..n], b[..n]);
      CountSameClinics(a[..n], b[..n], b[n].clinicId);
      assert b[n].number == InvoiceNumber(b[n].clinicId, CountInClinic(b[..n], b[n].clinicId));
    }
  }

  /** A status update keeps the table numbered in order. */
  lemma StatusKeepsNumbering(invoices: seq<Invoice>, id: string, status: InvoiceStatus)
    ensures NumberedInOrder(invoices) ==> NumberedInOrder(WithInvoiceStatus(invoices, id, status))
  {
    if NumberedInOrder(invoices) {
      SameNumbersKeepNumbering(invoices, WithInvoiceStatus(invoices, id, status));
    }
  }
}

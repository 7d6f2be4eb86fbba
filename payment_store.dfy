/** The payment ledger (`PaymentManagementEnhanced`): the `payments` state array, its
    filter, the record-payment handler with its balance and status rule, and the cards. */
module PaymentManagement {
  import opened Common
  import opened Text
  import opened Seqs

  datatype PaymentStatus = Paid | Partial | Unpaid

  datatype PaymentMode = Cash | Bank | Upi | Cheque

  /** A payment against an invoice; amounts are whole rupees. */
  datatype Payment = Payment(
    id: string,
    invoiceNumber: string,
    consigner: string,
    invoiceAmount: int,
    paidAmount: int,
    paymentDate: string,
    paymentMode: PaymentMode,
    transactionRef: string,
    status: PaymentStatus,
    dueDate: string,
    remainingBalance: int,
    receivedBy: string)

  /** The "Record Payment" dialog. */
  datatype PaymentForm = PaymentForm(
    invoiceNumber: string,
    consigner: string,
    invoiceAmount: NumInput<int>,
    paidAmount: NumInput<int>,
    paymentMode: PaymentMode,
    transactionRef: string,
    receivedBy: string,
    paymentDate: string)

  const SeedPayments: seq<Payment> := [
    Payment("1", "INV-2024-001", "ABC Traders", 45000, 45000, "2024-12-18", Bank, "TXN123456789",
      Paid, "2024-12-25", 0, "Rajesh Kumar"),
    Payment("2", "INV-2024-002", "Tech Solutions", 75000, 45000, "2024-12-15", Bank, "TXN987654321",
      Partial, "2024-12-30", 30000, "Priya Sharma"),
    Payment("3", "INV-2024-003", "Retail Hub", 38000, 0, "", Cash, "",
      Unpaid, "2024-12-28", 38000, ""),
    Payment("4", "INV-2024-004", "ABC Traders", 52000, 52000, "2024-12-10", Upi, "UPI123ABCD456",
      Paid, "2024-12-20", 0, "Amit Singh")
  ]

  // ---- the status rule ----

  /** `remaining === 0 ? "paid" : remaining < invoiceAmount ? "partial" : "unpaid"`
      with `remaining = invoiceAmount - paidAmount`. */
  function StatusOf(invoiceAmount: int, paidAmount: int): PaymentStatus
  {
    var remaining := invoiceAmount - paidAmount;
    if remaining == 0 then Paid else if remaining < invoiceAmount then Partial else Unpaid
  }

  /** In terms of the two amounts: "paid" exactly when the payment equals the invoice,
      "partial" when it differs and is positive, "unpaid" when it differs and is zero or
      negative. So an overpayment of a non-negative invoice counts as "partial", nothing
      paid on a non-zero invoice as "unpaid", and nothing paid on a zero invoice as "paid". */
  lemma StatusOfSpec(invoiceAmount: int, paidAmount: int)
    ensures StatusOf(invoiceAmount, paidAmount) == Paid <==> paidAmount == invoiceAmount
    ensures StatusOf(invoiceAmount, paidAmount) == Partial <==> paidAmount != invoiceAmount && paidAmount > 0
    ensures StatusOf(invoiceAmount, paidAmount) == Unpaid <==> paidAmount != invoiceAmount && paidAmount <= 0
    ensures paidAmount > invoiceAmount >= 0 ==> StatusOf(invoiceAmount, paidAmount) == Partial
    ensures invoiceAmount != 0 ==> StatusOf(invoiceAmount, 0) == Unpaid
    ensures StatusOf(0, 0) == Paid
  {
  }

  /** A record's balance is the invoice amount less the payment, and its status follows
      from the two amounts. */
  predicate Consistent(p: Payment)
  {
    p.remainingBalance == p.invoiceAmount - p.paidAmount && p.status == StatusOf(p.invoiceAmount, p.paidAmount)
  }

  predicate AllConsistent(ps: seq<Payment>)
  {
    forall i :: 0 <= i < |ps| ==> Consistent(ps[i])
  }

  lemma SeedConsistent()
    ensures AllConsistent(SeedPayments)
  {
  }

  // ---- filteredPayments ----

  /** The search box matches the invoice number, consigner or transaction reference. */
  predicate SearchHit(p: Payment, term: string)
  {
    Matches(p.invoiceNumber, term) || Matches(p.consigner, term) || Matches(p.transactionRef, term)
  }

  function Shown(term: string, filter: Choice<PaymentStatus>): Payment -> bool
  {
    p => SearchHit(p, term) && Admits(filter, p.status)
  }

  function FilterPayments(ps: seq<Payment>, term: string, filter: Choice<PaymentStatus>): seq<Payment>
  {
    Filter(ps, Shown(term, filter))
  }

  /** A payment is listed exactly when one of the three fields contains the term and the
      status dropdown admits it; the listing keeps the ledger's order. */
  lemma FilterPaymentsSpec(ps: seq<Payment>, term: string, filter: Choice<PaymentStatus>)
    ensures forall p :: p in FilterPayments(ps, term, filter) <==>
      p in ps && SearchHit(p, term) && Admits(filter, p.status)
    ensures forall p :: multiset(FilterPayments(ps, term, filter))[p] == if SearchHit(p, term) && Admits(filter, p.status) then multiset(ps)[p] else 0
    ensures IsSubsequence(FilterPayments(ps, term, filter), ps)
  {
    FilterMembers(ps, Shown(term, filter));
  }

  /** An empty search with "All Status" lists every payment. */
  lemma FilterPaymentsEverything(ps: seq<Payment>)
    ensures FilterPayments(ps, "", All) == ps
  {
    forall p | p in ps
      ensures Shown("", All)(p)
    {
      EmptyTermMatches(p.invoiceNumber);
    }
    FilterAll(ps, Shown("", All));
  }

  // ---- handleRecordPayment ----

  /** `newPayment.invoiceNumber && newPayment.paidAmount` (the amount's text is tested). */
  predicate CanRecord(form: PaymentForm)
  {
    form.invoiceNumber != "" && form.paidAmount.text != ""
  }

  /** The payment recorded from the dialog; a blank payment date becomes `today`, and
      `dueDate` is the date fifteen days on. */
  function NewPayment(form: PaymentForm, id: string, today: string, dueDate: string): Payment
  {
    var invoiceAmount := IntOrZero(form.invoiceAmount);
    var paidAmount := IntOrZero(form.paidAmount);
    Payment(id, form.invoiceNumber, form.consigner, invoiceAmount, paidAmount,
      if form.paymentDate != "" then form.paymentDate else today,
      form.paymentMode, form.transactionRef, StatusOf(invoiceAmount, paidAmount), dueDate,
      invoiceAmount - paidAmount, form.receivedBy)
  }

  /** A recorded payment is consistent, with unparsable amounts taken as 0: a blank invoice
      amount with a positive payment gives a negative balance and "partial". */
  lemma NewPaymentSpec(form: PaymentForm, id: string, today: string, dueDate: string)
    ensures Consistent(NewPayment(form, id, today, dueDate))
    ensures form.invoiceAmount.parsed.None? ==> NewPayment(form, id, today, dueDate).invoiceAmount == 0
    ensures form.paidAmount.parsed.None? ==> NewPayment(form, id, today, dueDate).paidAmount == 0
    ensures form.invoiceAmount.parsed.None? && IntOrZero(form.paidAmount) > 0 ==>
      NewPayment(form, id, today, dueDate).remainingBalance < 0 &&
      NewPayment(form, id, today, dueDate).status == Partial
  {
  }

  /** Recording keeps every record consistent. */
  lemma RecordKeepsConsistent(ps: seq<Payment>, form: PaymentForm, id: string, today: string, dueDate: string)
    requires AllConsistent(ps)
    ensures AllConsistent([NewPayment(form, id, today, dueDate)] + ps)
  {
    var r := [NewPayment(form, id, today, dueDate)] + ps;
    forall i | 0 <= i < |r|
      ensures Consistent(r[i])
    {
      if i > 0 {
        assert r[i] == ps[i - 1];
      }
    }
  }

  // ---- stats ----

  predicate IsPaid(p: Payment)
  {
    p.status == Paid
  }

  predicate IsPartial(p: Payment)
  {
    p.status == Partial
  }

  predicate IsUnpaid(p: Payment)
  {
    p.status == Unpaid
  }

  function InvoiceAmount(p: Payment): int
  {
    p.invoiceAmount
  }

  function Collected(p: Payment): int
  {
    p.paidAmount
  }

  function Outstanding(p: Payment): int
  {
    p.remainingBalance
  }

  function TotalCollected(ps: seq<Payment>): int
  {
    Sum(ps, Collected)
  }

  function TotalOutstanding(ps: seq<Payment>): int
  {
    Sum(ps, Outstanding)
  }

  /** The "Paid", "Partial" and "Unpaid" cards add up to the number of payments. */
  lemma StatusCountsPartition(ps: seq<Payment>)
    ensures |Filter(ps, IsPaid)| + |Filter(ps, IsPartial)| + |Filter(ps, IsUnpaid)| == |ps|
  {
    CountPartition3(ps, IsPaid, IsPartial, IsUnpaid);
  }

  /** In a consistent ledger, collected plus outstanding is the total invoiced. */
  lemma CollectedPlusOutstanding(ps: seq<Payment>)
    requires AllConsistent(ps)
    ensures TotalCollected(ps) + TotalOutstanding(ps) == Sum(ps, InvoiceAmount)
  {
    forall p | p in ps
      ensures Outstanding(p) == InvoiceAmount(p) - Collected(p)
    {
      var i :| 0 <= i < |ps| && ps[i] == p;
      assert Consistent(ps[i]);
    }
    SumDifference(ps, InvoiceAmount, Collected, Outstanding);
  }

  /** "Record Payment" is rendered for admin and accounts only. */
  predicate CreateOffered(role: string)
  {
    AdminOrAccounts(role)
  }

  /** The payments held by the component. */
  class PaymentStore {
    var payments: seq<Payment>

    ghost predicate Valid()
      reads this
    {
      AllConsistent(payments)
    }

    constructor ()
      ensures payments == SeedPayments
      ensures Valid()
    {
      payments := SeedPayments;
      SeedConsistent();
    }

    /** `handleRecordPayment`: a no-op unless the invoice number and paid amount are
        filled in; otherwise the new payment goes in front and the others follow
        unchanged. Every record stays consistent. */
    method Record(form: PaymentForm, id: string, today: string, dueDate: string)
      requires Valid()
      modifies this
      ensures Valid()
      ensures !CanRecord(form) ==> payments == old(payments)
      ensures CanRecord(form) ==> payments == [NewPayment(form, id, today, dueDate)] + old(payments)
    {
      if CanRecord(form) {
        RecordKeepsConsistent(payments, form, id, today, dueDate);
        payments := [NewPayment(form, id, today, dueDate)] + payments;
      }
    }
  }
}

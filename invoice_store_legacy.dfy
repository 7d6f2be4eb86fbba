/** The older invoice list (`InvoiceManagement` in `invoice-management.tsx`): whole-rupee
    invoices without GST, a three-field search, the total/paid/pending cards, the create
    handler, and the expression that decides whether the create dialog is rendered. */
module LegacyInvoiceManagement {
  import opened Common
  import opened Text
  import opened Seqs
  import InvoiceManagement

  datatype InvoiceStatus = Draft | Issued | Paid | Pending

  datatype Invoice = Invoice(
    id: string,
    invoiceNumber: string,
    lrNumber: string,
    consigner: string,
    amount: int,
    status: InvoiceStatus,
    date: string,
    dueDate: string)

  /** The "Create New Invoice" dialog; the amount is read with `parseInt`. */
  datatype InvoiceForm = InvoiceForm(lrNumber: string, consigner: string, amount: NumInput<int>)

  const NumberPrefix: string := "INV-2024-"

  /** The two invoices the list starts with. */
  const SeedInvoices: seq<Invoice> := [
    Invoice("1", "INV-2024-001", "LR-2024-001", "ABC Traders", 5000, Issued, "2024-12-20", "2024-12-27"),
    Invoice("2", "INV-2024-002", "LR-2024-002", "Tech Solutions", 3000, Paid, "2024-12-19", "2024-12-26")
  ]

  // ---- filteredInvoices ----

  /** The search box matches the invoice number, LR number or consigner. */
  predicate SearchHit(inv: Invoice, term: string)
  {
    Matches(inv.invoiceNumber, term) || Matches(inv.lrNumber, term) || Matches(inv.consigner, term)
  }

  function Shown(term: string): Invoice -> bool
  {
    (inv: Invoice) => SearchHit(inv, term)
  }

  function FilterInvoices(invs: seq<Invoice>, term: string): seq<Invoice>
  {
    Filter(invs, Shown(term))
  }

  /** An invoice is listed exactly when one of the three fields contains the term; the
      listing keeps the store's order. */
  lemma FilterInvoicesSpec(invs: seq<Invoice>, term: string)
    ensures forall inv :: inv in FilterInvoices(invs, term) <==> inv in invs && SearchHit(inv, term)
    ensures forall inv :: multiset(FilterInvoices(invs, term))[inv] == if SearchHit(inv, term) then multiset(invs)[inv] else 0
    ensures IsSubsequence(FilterInvoices(invs, term), invs)
  {
    FilterMembers(invs, Shown(term));
  }

  // ---- handleCreateInvoice ----

  /** `newInvoice.lrNumber && newInvoice.consigner && newInvoice.amount`: the amount is
      tested as typed text, before parsing. */
  predicate CanCreate(form: InvoiceForm)
  {
    form.lrNumber != "" && form.consigner != "" && form.amount.text != ""
  }

  /** The invoice created from the dialog when the store holds `count` invoices; the due
      date (a week after `today`) is a parameter. */
  function NewInvoice(form: InvoiceForm, count: nat, id: string, today: string, dueDate: string): Invoice
  {
    Invoice(id, DocNumber(NumberPrefix, count + 1), form.lrNumber, form.consigner, IntOrZero(form.amount),
      Draft, today, dueDate)
  }

  /** A new invoice is a "draft"; its number is "INV-2024-" followed by digits that read
      back as the old count plus one; text that `parseInt` cannot read is stored as 0. */
  lemma NewInvoiceSpec(form: InvoiceForm, count: nat, id: string, today: string, dueDate: string)
    ensures NewInvoice(form, count, id, today, dueDate).status == Draft
    ensures NewInvoice(form, count, id, today, dueDate).lrNumber == form.lrNumber
    ensures NewInvoice(form, count, id, today, dueDate).consigner == form.consigner
    ensures IsPrefix(NumberPrefix, NewInvoice(form, count, id, today, dueDate).invoiceNumber)
    ensures AllDigits(NewInvoice(form, count, id, today, dueDate).invoiceNumber[9..])
    ensures DigitsValue(NewInvoice(form, count, id, today, dueDate).invoiceNumber[9..]) == count + 1
    ensures form.amount.parsed.None? ==> NewInvoice(form, count, id, today, dueDate).amount == 0
    ensures form.amount.parsed.Some? ==> NewInvoice(form, count, id, today, dueDate).amount == form.amount.parsed.value
  {
    DocNumberRoundTrip(NumberPrefix, count + 1);
  }

  // ---- totals ----

  predicate IsPaid(inv: Invoice)
  {
    inv.status == Paid
  }

  predicate IsUnpaid(inv: Invoice)
  {
    inv.status != Paid
  }

  function Amount(inv: Invoice): int
  {
    inv.amount
  }

  /** `totalAmount`, over the filtered list. */
  function TotalAmount(invs: seq<Invoice>): int
  {
    Sum(invs, Amount)
  }

  /** `paidAmount`, over the filtered list. */
  function PaidAmount(invs: seq<Invoice>): int
  {
    Sum(Filter(invs, IsPaid), Amount)
  }

  /** The "Pending" card: `totalAmount - paidAmount`. */
  function PendingCard(invs: seq<Invoice>): int
  {
    TotalAmount(invs) - PaidAmount(invs)
  }

  /** The pending card, although computed as a difference, is the sum of the amounts of
      every listed invoice that is not "paid" (drafts included). */
  lemma PendingIsUnpaidSum(invs: seq<Invoice>)
    ensures PendingCard(invs) == Sum(Filter(invs, IsUnpaid), Amount)
  {
    SumPartition(invs, Amount, IsPaid, IsUnpaid);
  }

  /** The cards over the two seed invoices: 8000 in all, 3000 paid, 5000 pending. */
  lemma SeedTotals()
    ensures TotalAmount(SeedInvoices) == 8000
    ensures PaidAmount(SeedInvoices) == 3000
    ensures PendingCard(SeedInvoices) == 5000
  {
    assert SeedInvoices[1..][1..] == [];
  }

  // ---- the create-dialog expression ----

  /** What a JSX child expression evaluates to here: a boolean, which React renders as
      nothing, or the dialog element. */
  datatype Child = Bool(b: bool) | DialogElement

  predicate Renders(c: Child)
  {
    c.DialogElement?
  }

  /** The expression as written: `userRole === "admin" || (userRole === "accounts" && <Dialog/>)`.
      For admin the `||` stops at `true`. */
  function CreateDialogAsWritten(role: string): Child
  {
    if role == Admin then Bool(true)
    else if role == Accounts then DialogElement
    else Bool(false)
  }

  /** As written, only accounts get the dialog: admin's branch yields `true`, which draws
      nothing. */
  lemma AdminGetsNoDialog(role: string)
    ensures Renders(CreateDialogAsWritten(role)) <==> role == Accounts
    ensures !Renders(CreateDialogAsWritten(Admin)) && Renders(CreateDialogAsWritten(Accounts))
  {
  }

  /** The evidently intended expression, `(userRole === "admin" || userRole === "accounts") && <Dialog/>`,
      which is the enhanced list's rule. */
  function CreateDialog(role: string): Child
  {
    if AdminOrAccounts(role) then DialogElement else Bool(false)
  }

  /** With the grouping fixed, admin and accounts get the dialog and no one else does; the
      two versions differ for admin alone. */
  lemma CreateDialogCorrected(role: string)
    ensures Renders(CreateDialog(role)) <==> role == Admin || role == Accounts
    ensures Renders(CreateDialog(role)) <==> InvoiceManagement.CreateOffered(role)
    ensures Renders(CreateDialog(role)) != Renders(CreateDialogAsWritten(role)) <==> role == Admin
  {
  }

  /** The invoices held by the older component. */
  class LegacyInvoiceStore {
    var invoices: seq<Invoice>

    constructor ()
      ensures invoices == SeedInvoices
    {
      invoices := SeedInvoices;
    }

    /** `handleCreateInvoice`: a no-op unless LR number, consigner and amount are filled
        in; otherwise the new invoice goes in front and the old ones follow unchanged. */
    method Create(form: InvoiceForm, id: string, today: string, dueDate: string)
      modifies this
      ensures !CanCreate(form) ==> invoices == old(invoices)
      ensures CanCreate(form) ==> invoices == [NewInvoice(form, |old(invoices)|, id, today, dueDate)] + old(invoices)
      ensures CanCreate(form) ==> |invoices| == |old(invoices)| + 1 && invoices[1..] == old(invoices)
    {
      if CanCreate(form) {
        invoices := [NewInvoice(form, |invoices|, id, today, dueDate)] + invoices;
      }
    }
  }
}

/** The invoice detail dialog (`InvoiceDetailView`): its totals, the "Issue" and "Pay"
    actions and what they pass to the list's status handler. */
module InvoiceDetail {
  import opened Common
  import opened Seqs
  import opened InvoiceManagement

  /** `invoice.amount + invoice.gst` */
  function TotalWithGst(inv: Invoice): real
  {
    inv.amount + inv.gst
  }

  /** The arguments of one `onStatusChange(id, status, paidAmount?)` call. */
  datatype StatusChange = StatusChange(id: string, status: InvoiceStatus, paidAmount: Option<real>)

  /** The payment box starts out holding the remaining amount (`None` stands for a value
      `parseFloat` cannot read). */
  function DefaultEntry(inv: Invoice): Option<real>
  {
    Some(Remaining(inv))
  }

  /** `handleMarkPaid`: a positive entered amount is added to what was already paid and
      the invoice is marked "paid"; zero, negative or unreadable input sends nothing. */
  function MarkPaid(inv: Invoice, entered: Option<real>): Option<StatusChange>
  {
    var paid := if entered.Some? then entered.value else 0.0;
    if paid > 0.0 then Some(StatusChange(inv.id, Paid, Some(inv.paidAmount + paid))) else None
  }

  /** `handleIssue` */
  function Issue(inv: Invoice): StatusChange
  {
    StatusChange(inv.id, Issued, None)
  }

  /** The action block is rendered for admin and accounts. */
  predicate ActionsShown(role: string)
  {
    AdminOrAccounts(role)
  }

  /** "Issue Invoice" appears only on a draft. */
  predicate IssueShown(inv: Invoice, role: string)
  {
    ActionsShown(role) && inv.status == Draft
  }

  /** The payment box appears while the invoice is not paid and something remains. */
  predicate PaymentShown(inv: Invoice, role: string)
  {
    ActionsShown(role) && inv.status != Paid && Remaining(inv) > 0.0
  }

  /** What "Pay" sends: a call exactly when the entered amount is positive, always with
      status "paid" and the old paid amount plus the entry, even when that total is
      still below the invoice amount. */
  lemma MarkPaidSpec(inv: Invoice, entered: Option<real>)
    ensures MarkPaid(inv, entered).Some? <==> entered.Some? && entered.value > 0.0
    ensures MarkPaid(inv, entered).Some? ==>
      MarkPaid(inv, entered).value.id == inv.id &&
      MarkPaid(inv, entered).value.status == Paid &&
      MarkPaid(inv, entered).value.paidAmount == Some(inv.paidAmount + entered.value)
    ensures entered.Some? && 0.0 < entered.value < Remaining(inv) ==>
      MarkPaid(inv, entered).value.status == Paid &&
      MarkPaid(inv, entered).value.paidAmount.value < inv.amount
  {
  }

  /** Paying the default entry on an invoice that shows the payment box settles it: the
      store then holds it as "paid" with nothing remaining, so neither the row's
      remaining figure nor the payment box appears any more. */
  lemma PayDefaultSettles(invs: seq<Invoice>, k: int, role: string)
    requires 0 <= k < |invs|
    requires PaymentShown(invs[k], role)
    ensures MarkPaid(invs[k], DefaultEntry(invs[k])) == Some(StatusChange(invs[k].id, Paid, Some(invs[k].amount)))
    ensures var after := WithStatus(invs, invs[k].id, Paid, Some(invs[k].amount))[k];
      after.status == Paid && Remaining(after) == 0.0 && !RemainingShown(after) && !PaymentShown(after, role)
  {
  }

  /** Issuing moves a draft to "issued" and leaves the paid amount as it was. */
  lemma IssueKeepsPaid(invs: seq<Invoice>, k: int)
    requires 0 <= k < |invs|
    ensures Issue(invs[k]).status == Issued && Issue(invs[k]).paidAmount.None?
    ensures WithStatus(invs, invs[k].id, Issued, Issue(invs[k]).paidAmount)[k] == invs[k].(status := Issued)
  {
  }

  /** The dialog's "Total (with GST)" figures, added up over any list of invoices, give
      the list's "Total Amount" plus its "Total GST" card: GST is added on top of the
      amount, never folded into it. */
  lemma TotalWithGstSums(invs: seq<Invoice>)
    ensures SumR(invs, TotalWithGst) == TotalAmount(invs) + TotalGst(invs)
  {
    SumRDifference(invs, TotalWithGst, Gst, Amount);
  }
}

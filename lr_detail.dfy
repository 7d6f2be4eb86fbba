/** The lorry-receipt detail dialog (`LRDetailView`): the freight value it shows and the
    forward-only status buttons. The store's own handler accepts any status; the
    progression guard lives only here. */
module LRDetail {
  import opened Common
  import opened Seqs
  import opened LRManagement

  /** `statusProgression`; "pending" is not in it. */
  const Progression: seq<LRStatus> := [Created, InTransit, Delivered]

  /** `statusProgression.indexOf(status)`: -1 for a status not in the progression. */
  function IndexOf(s: LRStatus): (r: int)
    ensures -1 <= r < |Progression|
    ensures r >= 0 ==> Progression[r] == s
    ensures r == -1 ==> s !in Progression
  {
    FindFirst(Progression, (x: LRStatus) => x == s)
  }

  /** The positions of the progression, and "pending" outside it. */
  lemma IndexOfValues()
    ensures IndexOf(Created) == 0 && IndexOf(InTransit) == 1 && IndexOf(Delivered) == 2
    ensures IndexOf(Pending) == -1
  {
    assert Progression[0] == Created && Progression[1] == InTransit && Progression[2] == Delivered;
  }

  /** `lr.weight * (lr.rate / 1000)` */
  function TotalValue(lr: LR): real
  {
    lr.weight as real * (lr.rate as real / 1000.0)
  }

  /** In exact arithmetic the dialog's value of a receipt is the freight the list sums,
      so the "Total Revenue" card is the sum of the values the dialogs show. */
  lemma RevenueIsSumOfValues(lrs: seq<LR>)
    ensures forall lr :: TotalValue(lr) == Freight(lr)
    ensures TotalRevenue(lrs) == SumR(lrs, TotalValue)
  {
    forall lr: LR
      ensures TotalValue(lr) == Freight(lr)
    {
      var w, r := lr.weight as real, lr.rate as real;
      assert w * (r / 1000.0) == (w * r) / 1000.0;
    }
    SumRPointwise(lrs, Freight, TotalValue);
  }

  /** The "Update Status" section: admin or operations, and not yet delivered. */
  predicate UpdateShown(lr: LR, role: string)
  {
    AdminOrOperations(role) && lr.status != Delivered
  }

  /** Button `index` is not `disabled={index <= currentStatusIndex}`. */
  predicate ButtonEnabled(lr: LR, index: int)
  {
    !(index <= IndexOf(lr.status))
  }

  /** What clicking button `index` sends to `onStatusChange`, if the button is there and
      enabled. */
  function Click(lr: LR, role: string, index: int): Option<LRStatus>
  {
    if UpdateShown(lr, role) && 0 <= index < |Progression| && ButtonEnabled(lr, index)
    then Some(Progression[index])
    else None
  }

  /** A click emits something exactly for admin or operations on an undelivered receipt
      and a button past the current position, and what it emits is strictly later in
      the progression than the current status. */
  lemma ClickMovesForward(lr: LR, role: string, index: int)
    ensures Click(lr, role, index).Some? <==>
      AdminOrOperations(role) && lr.status != Delivered && IndexOf(lr.status) < index < 3
    ensures Click(lr, role, index).Some? ==>
      IndexOf(Click(lr, role, index).value) == index > IndexOf(lr.status)
  {
    IndexOfValues();
  }

  /** A "pending" receipt is outside the progression, so all three buttons are enabled,
      "created" included. */
  lemma PendingEnablesAll(lr: LR, role: string)
    requires lr.status == Pending && AdminOrOperations(role)
    ensures Click(lr, role, 0) == Some(Created)
    ensures Click(lr, role, 1) == Some(InTransit)
    ensures Click(lr, role, 2) == Some(Delivered)
  {
    IndexOfValues();
  }

  /** A delivered receipt, or a role other than admin and operations, gets no buttons. */
  lemma NoClickWhenHidden(lr: LR, role: string, index: int)
    requires lr.status == Delivered || !AdminOrOperations(role)
    ensures Click(lr, role, index).None?
  {
  }

  /** Through the dialog, the receipt it shows moves strictly forward in the store. */
  lemma ClickThenStore(lrs: seq<LR>, k: int, role: string, index: int)
    requires 0 <= k < |lrs|
    requires Click(lrs[k], role, index).Some?
    ensures IndexOf(WithStatus(lrs, lrs[k].id, Click(lrs[k], role, index).value)[k].status) > IndexOf(lrs[k].status)
  {
    ClickMovesForward(lrs[k], role, index);
  }

  /** The store on its own performs no such check: a delivered receipt can be set back
      to "created". */
  lemma StoreAllowsBackwardMove(lrs: seq<LR>, k: int)
    requires 0 <= k < |lrs| && lrs[k].status == Delivered
    ensures WithStatus(lrs, lrs[k].id, Created)[k].status == Created
    ensures IndexOf(WithStatus(lrs, lrs[k].id, Created)[k].status) < IndexOf(lrs[k].status)
  {
    IndexOfValues();
  }
}

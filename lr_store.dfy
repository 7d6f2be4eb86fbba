/** The lorry-receipt list (`LRManagementEnhanced`): the `lrs` state array, its
    search/status filter, the create and status-change handlers, and the stat cards. */
module LRManagement {
  import opened Common
  import opened Text
  import opened Seqs

  datatype LRStatus = Created | InTransit | Delivered | Pending

  /** A lorry receipt. Weight is in kilograms and rate in rupees per tonne. */
  datatype LR = LR(
    id: string,
    lrNumber: string,
    consigner: string,
    consignee: string,
    origin: string,
    destination: string,
    weight: int,
    rate: int,
    status: LRStatus,
    date: string)

  /** The "Create New LR" dialog: four text fields and two numeric ones. */
  datatype LRForm = LRForm(
    consigner: string,
    consignee: string,
    origin: string,
    destination: string,
    weight: NumInput<int>,
    rate: NumInput<int>)

  const NumberPrefix: string := "LR-2024-"

  /** The three receipts the list starts with. */
  const SeedLRs: seq<LR> := [
    LR("1", "LR-2024-001", "ABC Traders", "XYZ Enterprises", "Mumbai", "Delhi", 2500, 5000, InTransit, "2024-12-20"),
    LR("2", "LR-2024-002", "Tech Solutions", "Global Corp", "Bangalore", "Chennai", 1200, 3000, Delivered, "2024-12-19"),
    LR("3", "LR-2024-003", "Retail Hub", "Metro Stores", "Pune", "Hyderabad", 3600, 7200, Created, "2024-12-21")
  ]

  // ---- filteredLRs ----

  /** The search box matches the receipt number, consigner or consignee. */
  predicate SearchHit(lr: LR, term: string)
  {
    Matches(lr.lrNumber, term) || Matches(lr.consigner, term) || Matches(lr.consignee, term)
  }

  function Shown(term: string, filter: Choice<LRStatus>): LR -> bool
  {
    lr => SearchHit(lr, term) && Admits(filter, lr.status)
  }

  function FilterLRs(lrs: seq<LR>, term: string, filter: Choice<LRStatus>): seq<LR>
  {
    Filter(lrs, Shown(term, filter))
  }

  /** A receipt is listed exactly when one of the three fields contains the term and the
      status dropdown admits it; the listing keeps the store's order. */
  lemma FilterLRsSpec(lrs: seq<LR>, term: string, filter: Choice<LRStatus>)
    ensures forall lr :: lr in FilterLRs(lrs, term, filter) <==>
      lr in lrs && SearchHit(lr, term) && Admits(filter, lr.status)
    ensures forall lr :: multiset(FilterLRs(lrs, term, filter))[lr] == if SearchHit(lr, term) && Admits(filter, lr.status) then multiset(lrs)[lr] else 0
    ensures IsSubsequence(FilterLRs(lrs, term, filter), lrs)
  {
    FilterMembers(lrs, Shown(term, filter));
  }

  /** An empty search with "All Status" lists every receipt. */
  lemma FilterLRsEverything(lrs: seq<LR>)
    ensures FilterLRs(lrs, "", All) == lrs
  {
    forall lr | lr in lrs
      ensures Shown("", All)(lr)
    {
      EmptyTermMatches(lr.lrNumber);
    }
    FilterAll(lrs, Shown("", All));
  }

  /** Filtering a list with one receipt prepended lists that receipt first when it
      passes, followed by the old listing unchanged. */
  lemma FilterAfterPrepend(lr: LR, lrs: seq<LR>, term: string, filter: Choice<LRStatus>)
    ensures FilterLRs([lr] + lrs, term, filter) ==
      (if SearchHit(lr, term) && Admits(filter, lr.status) then [lr] else []) + FilterLRs(lrs, term, filter)
  {
    FilterAppend([lr], lrs, Shown(term, filter));
  }

  // ---- handleCreateLR ----

  /** `newLR.consigner && newLR.destination` */
  predicate CanCreate(form: LRForm)
  {
    form.consigner != "" && form.destination != ""
  }

  /** The receipt created from the dialog when the store holds `count` receipts. */
  function NewLR(form: LRForm, count: nat, id: string, today: string): LR
  {
    LR(id, DocNumber(NumberPrefix, count + 1), form.consigner, form.consignee, form.origin,
       form.destination, IntOrZero(form.weight), IntOrZero(form.rate), Created, today)
  }

  /** A new receipt starts as "created"; its number is "LR-2024-" followed by digits that
      read back as the old count plus one (three of them below 999 receipts); an
      unparsable weight or rate is stored as 0. */
  lemma NewLRSpec(form: LRForm, count: nat, id: string, today: string)
    ensures NewLR(form, count, id, today).status == Created
    ensures NewLR(form, count, id, today).consigner == form.consigner
    ensures NewLR(form, count, id, today).consignee == form.consignee
    ensures NewLR(form, count, id, today).origin == form.origin
    ensures NewLR(form, count, id, today).destination == form.destination
    ensures NewLR(form, count, id, today).date == today
    ensures IsPrefix(NumberPrefix, NewLR(form, count, id, today).lrNumber)
    ensures AllDigits(NewLR(form, count, id, today).lrNumber[8..])
    ensures DigitsValue(NewLR(form, count, id, today).lrNumber[8..]) == count + 1
    ensures count < 999 ==> |NewLR(form, count, id, today).lrNumber| == 11
    ensures form.weight.parsed.None? ==> NewLR(form, count, id, today).weight == 0
    ensures form.rate.parsed.None? ==> NewLR(form, count, id, today).rate == 0
  {
    DocNumberRoundTrip(NumberPrefix, count + 1);
  }

  // ---- handleStatusChange ----

  /** `lrs.map(lr => lr.id === id ? { ...lr, status } : lr)`: every receipt with the id
      gets the status, whatever it was before; nothing else changes. */
  function WithStatus(lrs: seq<LR>, id: string, status: LRStatus): (r: seq<LR>)
    ensures |r| == |lrs|
    ensures forall i :: 0 <= i < |lrs| && lrs[i].id != id ==> r[i] == lrs[i]
    ensures forall i :: 0 <= i < |lrs| && lrs[i].id == id ==> r[i] == lrs[i].(status := status)
  {
    Map(lrs, (lr: LR) => if lr.id == id then lr.(status := status) else lr)
  }

  /** Applying the same change twice is the same as applying it once. */
  lemma WithStatusIdempotent(lrs: seq<LR>, id: string, status: LRStatus)
    ensures WithStatus(WithStatus(lrs, id, status), id, status) == WithStatus(lrs, id, status)
  {
  }

  // ---- stats ----

  predicate IsInTransit(lr: LR)
  {
    lr.status == InTransit
  }

  predicate IsDelivered(lr: LR)
  {
    lr.status == Delivered
  }

  function InTransitCount(lrs: seq<LR>): nat
  {
    |Filter(lrs, IsInTransit)|
  }

  function DeliveredCount(lrs: seq<LR>): nat
  {
    |Filter(lrs, IsDelivered)|
  }

  /** `(lr.weight * lr.rate) / 1000`, exactly. */
  function Freight(lr: LR): real
  {
    (lr.weight * lr.rate) as real / 1000.0
  }

  function TotalRevenue(lrs: seq<LR>): real
  {
    SumR(lrs, Freight)
  }

  /** The "In Transit" and "Delivered" cards never add up to more than "Total LRs". */
  lemma StatsBounded(lrs: seq<LR>)
    ensures InTransitCount(lrs) + DeliveredCount(lrs) <= |lrs|
  {
    CountDisjoint(lrs, IsInTransit, IsDelivered);
  }

  /** Creating a receipt adds one to the total and its freight to the revenue, and leaves
      the in-transit and delivered counts as they were. */
  lemma StatsAfterCreate(form: LRForm, lrs: seq<LR>, id: string, today: string)
    ensures InTransitCount([NewLR(form, |lrs|, id, today)] + lrs) == InTransitCount(lrs)
    ensures DeliveredCount([NewLR(form, |lrs|, id, today)] + lrs) == DeliveredCount(lrs)
    ensures TotalRevenue([NewLR(form, |lrs|, id, today)] + lrs) ==
      TotalRevenue(lrs) + (IntOrZero(form.weight) * IntOrZero(form.rate)) as real / 1000.0
  {
    var lr := NewLR(form, |lrs|, id, today);
    FilterAppend([lr], lrs, IsInTransit);
    FilterAppend([lr], lrs, IsDelivered);
    assert ([lr] + lrs)[1..] == lrs;
  }

  /** The cards over the three seed receipts: one in transit, one delivered, and
      12500 + 3600 + 25920 rupees of freight. */
  lemma SeedStats()
    ensures InTransitCount(SeedLRs) == 1 && DeliveredCount(SeedLRs) == 1
    ensures TotalRevenue(SeedLRs) == 42020.0
  {
    assert SeedLRs[1..][1..][1..] == [];
  }

  /** "Create New LR" is rendered for admin and operations only. */
  predicate CreateOffered(role: string)
  {
    AdminOrOperations(role)
  }

  /** The receipts held by the component. */
  class LRStore {
    var lrs: seq<LR>

    constructor ()
      ensures lrs == SeedLRs
    {
      lrs := SeedLRs;
    }

    /** `handleCreateLR`: a no-op unless consigner and destination are filled in;
        otherwise the new receipt goes in front and the old ones follow unchanged. */
    method Create(form: LRForm, id: string, today: string)
      modifies this
      ensures !CanCreate(form) ==> lrs == old(lrs)
      ensures CanCreate(form) ==> lrs == [NewLR(form, |old(lrs)|, id, today)] + old(lrs)
      ensures CanCreate(form) ==> |lrs| == |old(lrs)| + 1 && lrs[1..] == old(lrs)
    {
      if CanCreate(form) {
        lrs := [NewLR(form, |lrs|, id, today)] + lrs;
      }
    }

    /** `handleStatusChange`: no progression check is made here. */
    method SetStatus(id: string, status: LRStatus)
      modifies this
      ensures lrs == WithStatus(old(lrs), id, status)
    {
      lrs := WithStatus(lrs, id, status);
    }
  }
}

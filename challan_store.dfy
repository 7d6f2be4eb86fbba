/** The delivery-challan list (`ChallanManagementEnhanced`): the `challans` state array,
    its filter, the create and status-change handlers, and the stat cards. */
module ChallanManagement {
  import opened Common
  import opened Text
  import opened Seqs

  datatype ChallanStatus = Pending | InTransit | Delivered

  /** A challan assigns a vehicle and driver to a lorry receipt. */
  datatype Challan = Challan(
    id: string,
    challanNumber: string,
    lrNumber: string,
    vehicleNumber: string,
    driverName: string,
    driverContact: string,
    route: string,
    departure: Stamp,
    expectedArrival: Stamp,
    actualArrival: Option<Stamp>,
    status: ChallanStatus,
    date: string)

  /** The "Create Challan" dialog. */
  datatype ChallanForm = ChallanForm(
    lrNumber: string,
    vehicleNumber: string,
    driverName: string,
    driverContact: string,
    expectedArrival: Stamp)

  const NumberPrefix: string := "CH-2024-"

  /** The two challans the list starts with (instants read as UTC). */
  const SeedChallans: seq<Challan> := [
    Challan("1", "CH-2024-001", "LR-2024-001", "MH-01-AB-1234", "Rajesh Kumar", "9876543210",
      "Mumbai → Delhi", Stamp("2024-12-20 08:00", Some(1734681600000)),
      Stamp("2024-12-22 18:00", Some(1734890400000)), None, InTransit, "2024-12-20"),
    Challan("2", "CH-2024-002", "LR-2024-002", "KA-01-CD-5678", "Amit Singh", "9765432109",
      "Bangalore → Chennai", Stamp("2024-12-19 10:00", Some(1734602400000)),
      Stamp("2024-12-20 16:00", Some(1734710400000)),
      Some(Stamp("2024-12-20 15:30", Some(1734708600000))), Delivered, "2024-12-19")
  ]

  // ---- filteredChallans ----

  /** The search box matches the challan number, LR number, vehicle number or driver. */
  predicate SearchHit(c: Challan, term: string)
  {
    Matches(c.challanNumber, term) || Matches(c.lrNumber, term) ||
    Matches(c.vehicleNumber, term) || Matches(c.driverName, term)
  }

  function Shown(term: string, filter: Choice<ChallanStatus>): Challan -> bool
  {
    c => SearchHit(c, term) && Admits(filter, c.status)
  }

  function FilterChallans(cs: seq<Challan>, term: string, filter: Choice<ChallanStatus>): seq<Challan>
  {
    Filter(cs, Shown(term, filter))
  }

  /** A challan is listed exactly when one of the four fields contains the term and the
      status dropdown admits it; the listing keeps the store's order. */
  lemma FilterChallansSpec(cs: seq<Challan>, term: string, filter: Choice<ChallanStatus>)
    ensures forall c :: c in FilterChallans(cs, term, filter) <==>
      c in cs && SearchHit(c, term) && Admits(filter, c.status)
    ensures forall c :: multiset(FilterChallans(cs, term, filter))[c] == if SearchHit(c, term) && Admits(filter, c.status) then multiset(cs)[c] else 0
    ensures IsSubsequence(FilterChallans(cs, term, filter), cs)
  {
    FilterMembers(cs, Shown(term, filter));
  }

  /** An empty search with "All Status" lists every challan. */
  lemma FilterChallansEverything(cs: seq<Challan>)
    ensures FilterChallans(cs, "", All) == cs
  {
    forall c | c in cs
      ensures Shown("", All)(c)
    {
      EmptyTermMatches(c.challanNumber);
    }
    FilterAll(cs, Shown("", All));
  }

  // ---- handleCreateChallan ----

  /** `newChallan.lrNumber && newChallan.vehicleNumber` */
  predicate CanCreate(form: ChallanForm)
  {
    form.lrNumber != "" && form.vehicleNumber != ""
  }

  /** The challan created from the dialog when the store holds `count` challans;
      it departs at `now`. */
  function NewChallan(form: ChallanForm, count: nat, id: string, now: Stamp, today: string): Challan
  {
    Challan(id, DocNumber(NumberPrefix, count + 1), form.lrNumber, form.vehicleNumber,
      form.driverName, form.driverContact, "TBD", now, form.expectedArrival, None, Pending, today)
  }

  /** A new challan is "pending" on route "TBD" with no actual arrival, and its number is
      "CH-2024-" followed by digits that read back as the old count plus one. */
  lemma NewChallanSpec(form: ChallanForm, count: nat, id: string, now: Stamp, today: string)
    ensures NewChallan(form, count, id, now, today).status == Pending
    ensures NewChallan(form, count, id, now, today).route == "TBD"
    ensures NewChallan(form, count, id, now, today).actualArrival.None?
    ensures IsPrefix(NumberPrefix, NewChallan(form, count, id, now, today).challanNumber)
    ensures AllDigits(NewChallan(form, count, id, now, today).challanNumber[8..])
    ensures DigitsValue(NewChallan(form, count, id, now, today).challanNumber[8..]) == count + 1
  {
    DocNumberRoundTrip(NumberPrefix, count + 1);
  }

  // ---- handleStatusChange ----

  /** The new state of one challan given the status picked: moving to "delivered" stamps
      the arrival with `now`; any other target keeps the recorded arrival. */
  function Moved(c: Challan, status: ChallanStatus, now: Stamp): Challan
  {
    c.(status := status, actualArrival := if status == Delivered then Some(now) else c.actualArrival)
  }

  /** Only challans with the id change, and only in status and (on delivery) arrival. */
  function WithStatus(cs: seq<Challan>, id: string, status: ChallanStatus, now: Stamp): (r: seq<Challan>)
    ensures |r| == |cs|
    ensures forall i :: 0 <= i < |cs| && cs[i].id != id ==> r[i] == cs[i]
    ensures forall i :: 0 <= i < |cs| && cs[i].id == id ==>
      r[i].status == status &&
      r[i].(status := cs[i].status, actualArrival := cs[i].actualArrival) == cs[i] &&
      (status == Delivered ==> r[i].actualArrival == Some(now)) &&
      (status != Delivered ==> r[i].actualArrival == cs[i].actualArrival)
  {
    Map(cs, (c: Challan) => if c.id == id then Moved(c, status, now) else c)
  }

  /** Every delivered challan carries a non-empty actual arrival. */
  ghost predicate DeliveredStamped(cs: seq<Challan>)
  {
    forall i :: 0 <= i < |cs| && cs[i].status == Delivered ==>
      cs[i].actualArrival.Some? && cs[i].actualArrival.value.text != ""
  }

  /** The seed data satisfies it, creating a challan keeps it, and so does every status
      change, because the current time's text is never empty. */
  lemma DeliveredStampedInvariant(cs: seq<Challan>, form: ChallanForm, id: string, status: ChallanStatus,
                                  now: Stamp, today: string)
    requires DeliveredStamped(cs)
    requires now.text != ""
    ensures DeliveredStamped(SeedChallans)
    ensures DeliveredStamped([NewChallan(form, |cs|, id, now, today)] + cs)
    ensures DeliveredStamped(WithStatus(cs, id, status, now))
  {
    var r := [NewChallan(form, |cs|, id, now, today)] + cs;
    forall i | 0 <= i < |r| && r[i].status == Delivered
      ensures r[i].actualArrival.Some? && r[i].actualArrival.value.text != ""
    {
      assert i != 0;
      assert r[i] == cs[i - 1];
    }
  }

  // ---- stats ----

  predicate IsPending(c: Challan)
  {
    c.status == Pending
  }

  predicate IsInTransit(c: Challan)
  {
    c.status == InTransit
  }

  predicate IsDelivered(c: Challan)
  {
    c.status == Delivered
  }

  function PendingCount(cs: seq<Challan>): nat
  {
    |Filter(cs, IsPending)|
  }

  function InTransitCount(cs: seq<Challan>): nat
  {
    |Filter(cs, IsInTransit)|
  }

  function DeliveredCount(cs: seq<Challan>): nat
  {
    |Filter(cs, IsDelivered)|
  }

  /** The three status cards add up to "Total Challans". */
  lemma StatsPartition(cs: seq<Challan>)
    ensures PendingCount(cs) + InTransitCount(cs) + DeliveredCount(cs) == |cs|
  {
    CountPartition3(cs, IsPending, IsInTransit, IsDelivered);
  }

  /** "Create Challan" is rendered for every role. */
  predicate CreateOffered(role: string)
  {
    true
  }

  /** The challans held by the component. */
  class ChallanStore {
    var challans: seq<Challan>

    constructor ()
      ensures challans == SeedChallans
    {
      challans := SeedChallans;
    }

    /** `handleCreateChallan`: a no-op unless LR number and vehicle number are filled in;
        otherwise the new challan goes in front and the old ones follow unchanged. */
    method Create(form: ChallanForm, id: string, now: Stamp, today: string)
      modifies this
      ensures !CanCreate(form) ==> challans == old(challans)
      ensures CanCreate(form) ==> challans == [NewChallan(form, |old(challans)|, id, now, today)] + old(challans)
      ensures CanCreate(form) ==> |challans| == |old(challans)| + 1 && challans[1..] == old(challans)
    {
      if CanCreate(form) {
        challans := [NewChallan(form, |challans|, id, now, today)] + challans;
      }
    }

    /** `handleStatusChange`: no progression check is made here. */
    method SetStatus(id: string, status: ChallanStatus, now: Stamp)
      modifies this
      ensures challans == WithStatus(old(challans), id, status, now)
    {
      challans := WithStatus(challans, id, status, now);
    }
  }
}

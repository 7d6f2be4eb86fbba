/** The older delivery-challan list (`ChallanManagement` in `challan-management.tsx`):
    a challan without contact or timestamps, a search that skips the driver, and a create
    dialog offered to every role. */
module LegacyChallanManagement {
  import opened Common
  import opened Text
  import opened Seqs
  import ChallanManagement

  /** The older challan record; statuses are those of the enhanced list. */
  datatype Challan = Challan(
    id: string,
    challanNumber: string,
    lrNumber: string,
    vehicleNumber: string,
    driverName: string,
    route: string,
    status: ChallanManagement.ChallanStatus,
    date: string)

  /** The "Create Challan Against LR" dialog. */
  datatype ChallanForm = ChallanForm(lrNumber: string, vehicleNumber: string, driverName: string)

  /** The two challans the older list starts with. */
  const SeedChallans: seq<Challan> := [
    Challan("1", "CH-2024-001", "LR-2024-001", "MH-01-AB-1234", "Rajesh Kumar", "Mumbai → Delhi",
      ChallanManagement.InTransit, "2024-12-20"),
    Challan("2", "CH-2024-002", "LR-2024-002", "KA-01-CD-5678", "Amit Singh", "Bangalore → Chennai",
      ChallanManagement.Delivered, "2024-12-19")
  ]

  // ---- filteredChallans ----

  /** The search box matches the challan number, LR number or vehicle number. */
  predicate SearchHit(c: Challan, term: string)
  {
    Matches(c.challanNumber, term) || Matches(c.lrNumber, term) || Matches(c.vehicleNumber, term)
  }

  function Shown(term: string): Challan -> bool
  {
    (c: Challan) => SearchHit(c, term)
  }

  function FilterChallans(cs: seq<Challan>, term: string): seq<Challan>
  {
    Filter(cs, Shown(term))
  }

  /** A challan is listed exactly when one of the three fields contains the term; the
      listing keeps the store's order. */
  lemma FilterChallansSpec(cs: seq<Challan>, term: string)
    ensures forall c :: c in FilterChallans(cs, term) <==> c in cs && SearchHit(c, term)
    ensures forall c :: multiset(FilterChallans(cs, term))[c] == if SearchHit(c, term) then multiset(cs)[c] else 0
    ensures IsSubsequence(FilterChallans(cs, term), cs)
  {
    FilterMembers(cs, Shown(term));
  }

  /** The driver's name is not searched: renaming the driver of every challan leaves the
      listing's choice of challans the same. */
  lemma DriverNotSearched(cs: seq<Challan>, term: string, driver: string, k: int)
    requires 0 <= k < |cs|
    ensures cs[k] in FilterChallans(cs, term) <==>
      cs[k].(driverName := driver) in FilterChallans(Map(cs, (c: Challan) => c.(driverName := driver)), term)
  {
    var renamed := Map(cs, (c: Challan) => c.(driverName := driver));
    FilterMembers(cs, Shown(term));
    FilterMembers(renamed, Shown(term));
    assert renamed[k] == cs[k].(driverName := driver);
  }

  // ---- handleCreateChallan ----

  /** `newChallan.lrNumber && newChallan.vehicleNumber` */
  predicate CanCreate(form: ChallanForm)
  {
    form.lrNumber != "" && form.vehicleNumber != ""
  }

  /** The challan created from the dialog when the store holds `count` challans. */
  function NewChallan(form: ChallanForm, count: nat, id: string, today: string): Challan
  {
    Challan(id, DocNumber(ChallanManagement.NumberPrefix, count + 1), form.lrNumber, form.vehicleNumber,
      form.driverName, "TBD", ChallanManagement.Pending, today)
  }

  /** A new challan is "pending" on route "TBD", keeps the three typed fields, and its
      number is "CH-2024-" followed by digits that read back as the old count plus one. */
  lemma NewChallanSpec(form: ChallanForm, count: nat, id: string, today: string)
    ensures NewChallan(form, count, id, today).status == ChallanManagement.Pending
    ensures NewChallan(form, count, id, today).route == "TBD"
    ensures NewChallan(form, count, id, today).lrNumber == form.lrNumber
    ensures NewChallan(form, count, id, today).vehicleNumber == form.vehicleNumber
    ensures NewChallan(form, count, id, today).driverName == form.driverName
    ensures IsPrefix(ChallanManagement.NumberPrefix, NewChallan(form, count, id, today).challanNumber)
    ensures DigitsValue(NewChallan(form, count, id, today).challanNumber[8..]) == count + 1
    ensures count < 999 ==> |NewChallan(form, count, id, today).challanNumber| == 11
  {
    DocNumberRoundTrip(ChallanManagement.NumberPrefix, count + 1);
  }

  /** As in the enhanced list, the create button is not role-gated: every role, a
      transport user or an unlisted role included, gets it. */
  lemma CreateOpenToAll(role: string)
    ensures ChallanManagement.CreateOffered(role) && ChallanManagement.CreateOffered(Transport)
  {
  }

  /** The challans held by the older component. */
  class LegacyChallanStore {
    var challans: seq<Challan>

    constructor ()
      ensures challans == SeedChallans
    {
      challans := SeedChallans;
    }

    /** `handleCreateChallan`: a no-op unless LR number and vehicle number are filled in;
        otherwise the new challan goes in front and the old ones follow unchanged. */
    method Create(form: ChallanForm, id: string, today: string)
      modifies this
      ensures !CanCreate(form) ==> challans == old(challans)
      ensures CanCreate(form) ==> challans == [NewChallan(form, |old(challans)|, id, today)] + old(challans)
      ensures CanCreate(form) ==> |challans| == |old(challans)| + 1 && challans[1..] == old(challans)
    {
      if CanCreate(form) {
        challans := [NewChallan(form, |challans|, id, today)] + challans;
      }
    }
  }
}

/** The older lorry-receipt list (`LRManagement` in `lr-management.tsx`): the same
    receipts, seed data and create handler as the enhanced list, but a search box with
    no status dropdown and no status changes. */
module LegacyLRManagement {
  import opened Common
  import opened Seqs
  import LRManagement

  /** The search box matches the receipt number, consigner or consignee. */
  function Shown(term: string): LRManagement.LR -> bool
  {
    (lr: LRManagement.LR) => LRManagement.SearchHit(lr, term)
  }

  /** `filteredLRs` */
  function FilterLRs(lrs: seq<LRManagement.LR>, term: string): seq<LRManagement.LR>
  {
    Filter(lrs, Shown(term))
  }

  /** A receipt is listed exactly when one of the three fields contains the term, whatever
      its status; the listing keeps the store's order. */
  lemma FilterLRsSpec(lrs: seq<LRManagement.LR>, term: string)
    ensures forall lr :: lr in FilterLRs(lrs, term) <==> lr in lrs && LRManagement.SearchHit(lr, term)
    ensures forall lr :: multiset(FilterLRs(lrs, term))[lr] == if LRManagement.SearchHit(lr, term) then multiset(lrs)[lr] else 0
    ensures IsSubsequence(FilterLRs(lrs, term), lrs)
  {
    FilterMembers(lrs, Shown(term));
  }

  /** The older search lists exactly what the enhanced list shows under "All Status". */
  lemma SameAsAllStatus(lrs: seq<LRManagement.LR>, term: string)
    ensures FilterLRs(lrs, term) == LRManagement.FilterLRs(lrs, term, All)
  {
    FilterSamePredicate(lrs, Shown(term), LRManagement.Shown(term, All));
  }

  /** "Create New LR" is rendered for admin and operations; accounts and transport users
      never see it. */
  lemma CreateGate(role: string)
    ensures LRManagement.CreateOffered(role) <==> role == Admin || role == Operations
    ensures !LRManagement.CreateOffered(Accounts) && !LRManagement.CreateOffered(Transport)
  {
  }

  /** The receipts held by the older component. */
  class LegacyLRStore {
    var lrs: seq<LRManagement.LR>

    constructor ()
      ensures lrs == LRManagement.SeedLRs
    {
      lrs := LRManagement.SeedLRs;
    }

    /** `handleCreateLR`: a no-op unless consigner and destination are filled in;
        otherwise the new receipt goes in front and the old ones follow unchanged. */
    method Create(form: LRManagement.LRForm, id: string, today: string)
      modifies this
      ensures !LRManagement.CanCreate(form) ==> lrs == old(lrs)
      ensures LRManagement.CanCreate(form) ==> lrs == [LRManagement.NewLR(form, |old(lrs)|, id, today)] + old(lrs)
      ensures LRManagement.CanCreate(form) ==> |lrs| == |old(lrs)| + 1 && lrs[1..] == old(lrs)
    {
      if LRManagement.CanCreate(form) {
        lrs := [LRManagement.NewLR(form, |lrs|, id, today)] + lrs;
      }
    }
  }
}

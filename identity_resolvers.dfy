/**
 * Identity resolvers: whether an identity, or an identity for one customer,
 * campaign or line item, is active. Deactivating appends the id to the
 * identity's inactive list; activating removes every copy of it.
 */
module IdentityResolvers {

  import opened Wrappers
  import opened Seqs

  /** The stored identity fields the activation mutations change. */
  class Identity {
    const id: string
    var inactive: bool
    var inactiveCustomerIds: seq<string>
    var inactiveCampaignIds: seq<string>
    /** Older documents may lack the array: `None`. */
    var inactiveLineItemIds: Option<seq<string>>

    constructor(id: string)
      ensures this.id == id && !inactive
      ensures inactiveCustomerIds == [] && inactiveCampaignIds == []
      ensures inactiveLineItemIds == None
    {
      this.id := id;
      inactive := false;
      inactiveCustomerIds := [];
      inactiveCampaignIds := [];
      inactiveLineItemIds := None;
    }
  }

  /** The error when no identity has the requested id. */
  function NotFound(identityId: string): (message: string)
    ensures |message| == |"No identity found for ID '"| + |identityId| + 1
    ensures message[..|"No identity found for ID '"|] == "No identity found for ID '"
    ensures message[|"No identity found for ID '"|..|message| - 1] == identityId
    ensures message[|message| - 1] == '\''
  {
    "No identity found for ID '" + identityId + "'"
  }

  /** Deactivating appends the id, even when it is already listed. */
  function Deactivated(ids: seq<string>, id: string): (r: seq<string>)
    ensures id in r
    ensures |r| == |ids| + 1 && r[..|ids|] == ids && r[|ids|] == id
    ensures multiset(r) == multiset(ids) + multiset{id}
  {
    ids + [id]
  }

  function IsNot(id: string): string -> bool { (x: string) => x != id }

  /** Activating removes every copy of the id and keeps the rest in order. */
  function Reactivated(ids: seq<string>, id: string): (r: seq<string>)
    ensures id !in r
    ensures forall x :: x in r <==> x in ids && x != id
    ensures IsSubsequence(r, ids)
    ensures forall x :: multiset(r)[x] == if x == id then 0 else multiset(ids)[x]
  {
    FilterIsSubsequence(ids, IsNot(id));
    FilterCountAll(ids, IsNot(id));
    Filter(ids, IsNot(id))
  }

  /** An identity is active for an id exactly when the id is not in the inactive list. */
  predicate ActiveFor(ids: seq<string>, id: string)
  {
    id !in ids
  }

  /**
   * Deactivating then activating the same id leaves the list as activating
   * alone would; when the id was not listed, the list is back as it was.
   */
  lemma {:induction false} ReactivateUndoesDeactivate(ids: seq<string>, id: string)
    ensures Reactivated(Deactivated(ids, id), id) == Reactivated(ids, id)
    ensures id !in ids ==> Reactivated(Deactivated(ids, id), id) == ids
  {
    FilterAppend(ids, [id], IsNot(id));
    FilterOne(id, IsNot(id));
    assert Filter(ids, IsNot(id)) + [] == Filter(ids, IsNot(id));
    if id !in ids {
      FilterKeepsAll(ids, IsNot(id));
    }
  }

  /** Each mutation decides the activity for its own id and leaves every other id as it was. */
  lemma ActivationIsolated(ids: seq<string>, id: string, other: string)
    ensures !ActiveFor(Deactivated(ids, id), id) && ActiveFor(Reactivated(ids, id), id)
    ensures other != id ==>
      (ActiveFor(Deactivated(ids, id), other) <==> ActiveFor(ids, other))
      && (ActiveFor(Reactivated(ids, id), other) <==> ActiveFor(ids, other))
  {
  }

  /** Toggles the identity's global flag. */
  method IdentityActivation(identity: Identity?, identityId: string, active: bool) returns (r: Result<Identity, string>)
    modifies identity
    ensures identity == null ==> r == Failure(NotFound(identityId))
    ensures identity != null ==> r == Success(identity) && identity.inactive == !active
    ensures identity != null ==>
      unchanged(identity`inactiveCustomerIds, identity`inactiveCampaignIds, identity`inactiveLineItemIds)
  {
    if identity == null {
      return Failure(NotFound(identityId));
    }
    identity.inactive := !active;
    return Success(identity);
  }

  /** Deactivates or activates the identity for one customer. */
  method IdentityCustomerActivation(identity: Identity?, identityId: string, active: bool, customerId: string)
    returns (r: Result<Identity, string>)
    modifies identity
    ensures identity == null ==> r == Failure(NotFound(identityId))
    ensures identity != null ==> r == Success(identity)
    ensures identity != null ==>
      (identity.inactiveCustomerIds ==
         if active then Reactivated(old(identity.inactiveCustomerIds), customerId)
         else Deactivated(old(identity.inactiveCustomerIds), customerId))
    ensures identity != null ==> unchanged(identity`inactive, identity`inactiveCampaignIds, identity`inactiveLineItemIds)
  {
    if identity == null {
      return Failure(NotFound(identityId));
    }
    if !active {
      identity.inactiveCustomerIds := identity.inactiveCustomerIds + [customerId];
    } else {
      identity.inactiveCustomerIds := Filter(identity.inactiveCustomerIds, IsNot(customerId));
    }
    return Success(identity);
  }

  /** Deactivates or activates the identity for one campaign. */
  method IdentityCampaignActivation(identity: Identity?, identityId: string, active: bool, campaignId: string)
    returns (r: Result<Identity, string>)
    modifies identity
    ensures identity == null ==> r == Failure(NotFound(identityId))
    ensures identity != null ==> r == Success(identity)
    ensures identity != null ==>
      (identity.inactiveCampaignIds ==
         if active then Reactivated(old(identity.inactiveCampaignIds), campaignId)
         else Deactivated(old(identity.inactiveCampaignIds), campaignId))
    ensures identity != null ==> unchanged(identity`inactive, identity`inactiveCustomerIds, identity`inactiveLineItemIds)
  {
    if identity == null {
      return Failure(NotFound(identityId));
    }
    if !active {
      identity.inactiveCampaignIds := identity.inactiveCampaignIds + [campaignId];
    } else {
      identity.inactiveCampaignIds := Filter(identity.inactiveCampaignIds, IsNot(campaignId));
    }
    return Success(identity);
  }

  /**
   * Deactivates or activates the identity for one line item; a missing
   * list is treated as empty and is always written back as a list.
   */
  method IdentityLineItemActivation(identity: Identity?, identityId: string, active: bool, lineItemId: string)
    returns (r: Result<Identity, string>)
    modifies identity
    ensures identity == null ==> r == Failure(NotFound(identityId))
    ensures identity != null ==> r == Success(identity)
    ensures identity != null ==>
      var before := if old(identity.inactiveLineItemIds).Some? then old(identity.inactiveLineItemIds).value else [];
      identity.inactiveLineItemIds ==
        Some(if active then Reactivated(before, lineItemId) else Deactivated(before, lineItemId))
    ensures identity != null ==> unchanged(identity`inactive, identity`inactiveCustomerIds, identity`inactiveCampaignIds)
  {
    if identity == null {
      return Failure(NotFound(identityId));
    }
    var inactiveLineItemIds := if identity.inactiveLineItemIds.Some? then identity.inactiveLineItemIds.value else [];
    if !active {
      inactiveLineItemIds := inactiveLineItemIds + [lineItemId];
    } else {
      inactiveLineItemIds := Filter(inactiveLineItemIds, IsNot(lineItemId));
    }
    identity.inactiveLineItemIds := Some(inactiveLineItemIds);
    return Success(identity);
  }

  /** How a resolver for an identity's inactive customers, campaigns or line items answers. */
  datatype InactiveLookup = NoLookup | LoadMany(ids: seq<string>)

  /** No lookup when the list is missing or empty; otherwise load every listed id. */
  function LookupInactive(ids: Option<seq<string>>): (r: InactiveLookup)
    ensures r.NoLookup? <==> ids.None? || ids.value == []
    ensures r.LoadMany? ==> r.ids == ids.value && |r.ids| > 0
  {
    if ids.None? || |ids.value| == 0 then NoLookup else LoadMany(ids.value)
  }

  /**
   * After a deactivation the resolver loads the id; after activating the
   * only listed id it loads nothing.
   */
  lemma LookupAfterActivation(ids: seq<string>, id: string)
    ensures LookupInactive(Some(Deactivated(ids, id))) == LoadMany(ids + [id])
    ensures (forall i :: 0 <= i < |ids| ==> ids[i] == id) ==> LookupInactive(Some(Reactivated(ids, id))) == NoLookup
  {
    if forall i :: 0 <= i < |ids| ==> ids[i] == id {
      FilterDropsAll(ids, IsNot(id));
    }
  }
}

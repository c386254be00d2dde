/**
 * Campaign resolver helpers: the identity limit, the excluded-field list,
 * the grouping of email sends by URL and by deployment, the active flag of a
 * send group and of a form, and the exclusion lists the mutations store.
 */
module CampaignResolvers {

  import opened Wrappers
  import opened Seqs
  import IdentityAttributes
  import opened Grouping

  /** The limit when a non-admin asks for none, or for one out of range. */
  const MaxIdentitiesCap := 200

  /**
   * The identity limit a request may use. `max` is the optional GraphQL
   * argument; a missing limit and a limit of 0 are both falsy.
   */
  function CalcMax(isAdmin: bool, max: Option<int>): (r: int)
    ensures !isAdmin ==> 1 <= r <= MaxIdentitiesCap
    ensures !isAdmin && max.Some? && 1 <= max.value <= MaxIdentitiesCap ==> r == max.value
    ensures !isAdmin && (max.None? || max.value < 1 || max.value > MaxIdentitiesCap) ==> r == MaxIdentitiesCap
    ensures isAdmin ==> 0 <= r
    ensures isAdmin ==> r == if max.Some? && max.value > 0 then max.value else 0
  {
    if !isAdmin && (max.None? || max.value == 0 || max.value < 1 || max.value > MaxIdentitiesCap) then
      MaxIdentitiesCap
    else if isAdmin && (max.None? || max.value == 0 || max.value < 0) then
      0
    else
      max.value
  }

  /** A limit that came out of `CalcMax` comes out of it again unchanged. */
  lemma CalcMaxIdempotent(isAdmin: bool, max: Option<int>)
    ensures CalcMax(isAdmin, Some(CalcMax(isAdmin, max))) == CalcMax(isAdmin, max)
  {
  }

  /**
   * The fields to exclude: the requested ones (when an array was given),
   * then, for a non-admin, every admin-only identity attribute; duplicates
   * dropped, first occurrence kept.
   */
  function HandleExcludedFields(excludeFields: Option<seq<string>>, isAdmin: bool): (r: seq<string>)
    ensures NoDuplicates(r)
    ensures forall f :: f in r <==>
      (excludeFields.Some? && f in excludeFields.value) || (!isAdmin && f in IdentityAttributes.AdminOnlyKeys)
  {
    var requested := if excludeFields.Some? then excludeFields.value else [];
    var restricted := if !isAdmin then IdentityAttributes.AdminOnlyKeys else [];
    assert forall i :: 0 <= i < |requested| ==> (requested + restricted)[i] == requested[i];
    assert forall i :: 0 <= i < |restricted| ==> (requested + restricted)[|requested| + i] == restricted[i];
    Dedupe(requested + restricted)
  }

  /** Sending a stored list back through the mutation stores the same list. */
  lemma HandleExcludedFieldsStable(excludeFields: Option<seq<string>>, isAdmin: bool)
    ensures var r := HandleExcludedFields(excludeFields, isAdmin);
      HandleExcludedFields(Some(r), isAdmin) == r
  {
    if isAdmin {
      StableForAdmin(excludeFields);
    } else {
      StableForNonAdmin(excludeFields);
    }
  }

  lemma StableForAdmin(excludeFields: Option<seq<string>>)
    ensures var r := HandleExcludedFields(excludeFields, true);
      HandleExcludedFields(Some(r), true) == r
  {
    var r := HandleExcludedFields(excludeFields, true);
    assert r + [] == r;
    DedupeOfDistinct(r);
  }

  lemma StableForNonAdmin(excludeFields: Option<seq<string>>)
    ensures var r := HandleExcludedFields(excludeFields, false);
      HandleExcludedFields(Some(r), false) == r
  {
    var r := HandleExcludedFields(excludeFields, false);
    var phone := IdentityAttributes.AdminOnlyKeys[0];
    assert phone in r;
    assert IdentityAttributes.AdminOnlyKeys == [phone];
    DedupeAddPresent(r, phone);
  }

  // ----- email URL groups -----

  /** One send of one extracted URL in one deployment. */
  datatype EmailSend = EmailSend(id: string, urlId: string, sendId: string, deploymentId: string)

  /**
   * A URL/send pair as the exclusion mutation receives it. The stored form
   * keeps only `urlId` and `sendId`; `active` only selects what is stored.
   */
  datatype ExcludeUrl = ExcludeUrl(urlId: string, sendId: string, active: Option<bool>)

  datatype SendGroup = SendGroup(emailSend: EmailSend, excludeUrls: seq<ExcludeUrl>)
  datatype DeploymentGroup = DeploymentGroup(deploymentId: string, sendGroups: seq<SendGroup>)
  datatype UrlGroup = UrlGroup(urlId: string, sendUrls: seq<EmailSend>, excludeUrls: seq<ExcludeUrl>)

  function DeploymentOf(): EmailSend -> string { (s: EmailSend) => s.deploymentId }
  function UrlOf(): EmailSend -> string { (s: EmailSend) => s.urlId }

  /** Every send paired with the campaign's exclusion list. */
  function SendGroups(sends: seq<EmailSend>, excludeUrls: seq<ExcludeUrl>): (r: seq<SendGroup>)
    ensures |r| == |sends|
    ensures forall i :: 0 <= i < |r| ==> r[i] == SendGroup(sends[i], excludeUrls)
  {
    seq(|sends|, i requires 0 <= i < |sends| => SendGroup(sends[i], excludeUrls))
  }

  /**
   * The URL groups of an email campaign: none when the campaign is not
   * found, else one group per URL in order of first appearance, holding that
   * URL's sends and the campaign's exclusion list (empty when unset).
   */
  method UrlGroups(campaignFound: bool, excludeUrls: Option<seq<ExcludeUrl>>, emailSends: seq<EmailSend>)
    returns (groups: seq<UrlGroup>)
    ensures !campaignFound ==> groups == []
    ensures campaignFound ==> |groups| == |Dedupe(KeysOf(emailSends, UrlOf()))|
    ensures campaignFound ==> forall i :: 0 <= i < |groups| ==>
      groups[i].urlId == Dedupe(KeysOf(emailSends, UrlOf()))[i]
      && groups[i].sendUrls == Filter(emailSends, HasKey(UrlOf(), groups[i].urlId))
      && groups[i].excludeUrls == (if excludeUrls.Some? then excludeUrls.value else [])
  {
    if !campaignFound {
      return [];
    }
    var stored := if excludeUrls.Some? then excludeUrls.value else [];
    var order, byUrl := GroupByKey(emailSends, UrlOf());
    groups := seq(|order|, i requires 0 <= i < |order| => UrlGroup(order[i], byUrl[order[i]], stored));
  }

  /**
   * The deployment groups of one URL group: one per deployment in order of
   * first appearance, each pairing that deployment's sends with the
   * campaign's exclusion list.
   */
  method DeploymentGroups(urlGroup: UrlGroup) returns (groups: seq<DeploymentGroup>)
    ensures |groups| == |Dedupe(KeysOf(urlGroup.sendUrls, DeploymentOf()))|
    ensures forall i :: 0 <= i < |groups| ==>
      groups[i].deploymentId == Dedupe(KeysOf(urlGroup.sendUrls, DeploymentOf()))[i]
      && groups[i].sendGroups ==
         SendGroups(Filter(urlGroup.sendUrls, HasKey(DeploymentOf(), groups[i].deploymentId)), urlGroup.excludeUrls)
  {
    var order, byDeployment := GroupByKey(urlGroup.sendUrls, DeploymentOf());
    groups := seq(|order|, i requires 0 <= i < |order| =>
      DeploymentGroup(order[i], SendGroups(byDeployment[order[i]], urlGroup.excludeUrls)));
  }

  /** Whether an exclusion names the send's URL and send. */
  predicate Matches(e: ExcludeUrl, send: EmailSend)
  {
    e.urlId == send.urlId && e.sendId == send.sendId
  }

  /** The first exclusion that names the send, if any. */
  function FindExclusion(excludeUrls: seq<ExcludeUrl>, send: EmailSend): (r: Option<nat>)
    ensures r.Some? ==> r.value < |excludeUrls| && Matches(excludeUrls[r.value], send)
    ensures r.Some? ==> forall j :: 0 <= j < r.value ==> !Matches(excludeUrls[j], send)
    ensures r.None? <==> forall j :: 0 <= j < |excludeUrls| ==> !Matches(excludeUrls[j], send)
  {
    if excludeUrls == [] then None
    else if Matches(excludeUrls[0], send) then Some(0)
    else
      match FindExclusion(excludeUrls[1..], send)
      case None => None
      case Some(j) => Some(j + 1)
  }

  /** A send group is active unless the exclusion list names its URL and send. */
  function SendGroupActive(group: SendGroup): (active: bool)
    ensures active <==> forall j :: 0 <= j < |group.excludeUrls| ==> !Matches(group.excludeUrls[j], group.emailSend)
  {
    FindExclusion(group.excludeUrls, group.emailSend).None?
  }

  function IsDeactivated(): ExcludeUrl -> bool { (e: ExcludeUrl) => e.active == Some(false) }

  /** The exclusion list the mutation stores: the entries marked `active: false`, in order. */
  function StoredExcludeUrls(input: seq<ExcludeUrl>): (r: seq<ExcludeUrl>)
    ensures forall i :: 0 <= i < |r| ==> r[i] in input && r[i].active == Some(false)
    ensures forall i :: 0 <= i < |input| && input[i].active == Some(false) ==> input[i] in r
    ensures IsSubsequence(r, input)
    ensures forall e :: multiset(r)[e] == if e.active == Some(false) then multiset(input)[e] else 0
  {
    FilterIsSubsequence(input, IsDeactivated());
    FilterCountAll(input, IsDeactivated());
    Filter(input, IsDeactivated())
  }

  /**
   * After the mutation stores a list, a send group reads back inactive
   * exactly when some submitted entry for its URL and send was marked
   * `active: false`.
   */
  lemma ExcludedUrlsRoundTrip(input: seq<ExcludeUrl>, send: EmailSend)
    ensures !SendGroupActive(SendGroup(send, StoredExcludeUrls(input))) <==>
      exists i :: 0 <= i < |input| && Matches(input[i], send) && input[i].active == Some(false)
  {
    var stored := StoredExcludeUrls(input);
    if !SendGroupActive(SendGroup(send, stored)) {
      var j :| 0 <= j < |stored| && Matches(stored[j], send);
      var i :| 0 <= i < |input| && input[i] == stored[j];
      assert Matches(input[i], send) && input[i].active == Some(false);
    }
  }

  // ----- form campaign -----

  /** A form as the exclusion mutation receives it. */
  datatype FormExclusion = FormExclusion(formId: string, active: Option<bool>)

  datatype FormEntry = FormEntry(id: string, active: bool)

  function FormDeactivated(): FormExclusion -> bool { (e: FormExclusion) => e.active == Some(false) }

  /** The form ids of `entries`, position by position. */
  function FormIds(entries: seq<FormExclusion>): (ids: seq<string>)
    ensures |ids| == |entries|
    ensures forall i :: 0 <= i < |entries| ==> ids[i] == entries[i].formId
  {
    seq(|entries|, i requires 0 <= i < |entries| => entries[i].formId)
  }

  /** The id of every submitted entry marked `active: false` is stored. */
  lemma DeactivatedFormIdsStored(input: seq<FormExclusion>, kept: seq<FormExclusion>, ids: seq<string>)
    requires kept == Filter(input, FormDeactivated())
    requires |ids| == |kept| && forall i :: 0 <= i < |kept| ==> ids[i] == kept[i].formId
    ensures forall j :: 0 <= j < |input| && input[j].active == Some(false) ==> input[j].formId in ids
  {
    forall j | 0 <= j < |input| && input[j].active == Some(false)
      ensures input[j].formId in ids
    {
      assert FormDeactivated()(input[j]);
      assert input[j] in kept;
      var k :| 0 <= k < |kept| && kept[k] == input[j];
      assert ids[k] == input[j].formId;
    }
  }

  /** The form ids the mutation stores: those of the entries marked `active: false`, in order. */
  function ExcludeFormIds(input: seq<FormExclusion>): (ids: seq<string>)
    // Position by position, the ids of the deactivated entries: order and copies kept.
    ensures |ids| == |Filter(input, FormDeactivated())|
    ensures forall i :: 0 <= i < |ids| ==> ids[i] == Filter(input, FormDeactivated())[i].formId
    // Every stored id comes from a submitted entry marked `active: false`.
    ensures forall i :: 0 <= i < |ids| ==>
      Filter(input, FormDeactivated())[i] in input && Filter(input, FormDeactivated())[i].active == Some(false)
    ensures forall j :: 0 <= j < |input| && input[j].active == Some(false) ==> input[j].formId in ids
  {
    var kept := Filter(input, FormDeactivated());
    var stored := FormIds(kept);
    DeactivatedFormIdsStored(input, kept, stored);
    assert forall i :: 0 <= i < |kept| ==> FormDeactivated()(kept[i]);
    stored
  }

  /**
   * The campaign's eligible forms, in order, each active unless its id is in
   * the stored exclusion list (no list: all active).
   */
  function FormEntries(formIds: seq<string>, excludeFormIds: Option<seq<string>>): (entries: seq<FormEntry>)
    ensures |entries| == |formIds|
    ensures forall i :: 0 <= i < |entries| ==>
      entries[i].id == formIds[i]
      && (entries[i].active <==> excludeFormIds.None? || formIds[i] !in excludeFormIds.value)
  {
    var exclude := if excludeFormIds.Some? then excludeFormIds.value else [];
    seq(|formIds|, i requires 0 <= i < |formIds| => FormEntry(formIds[i], formIds[i] !in exclude))
  }

  /**
   * After the mutation stores a list, a form reads back inactive exactly when
   * some submitted entry for it was marked `active: false`.
   */
  lemma FormExclusionRoundTrip(formIds: seq<string>, input: seq<FormExclusion>, i: nat)
    requires i < |formIds|
    ensures !FormEntries(formIds, Some(ExcludeFormIds(input)))[i].active <==>
      exists j :: 0 <= j < |input| && input[j].formId == formIds[i] && input[j].active == Some(false)
  {
    var ids := ExcludeFormIds(input);
    if formIds[i] in ids {
      var kept := Filter(input, FormDeactivated());
      var k :| 0 <= k < |ids| && ids[k] == formIds[i];
      var j :| 0 <= j < |input| && input[j] == kept[k];
    }
  }
}

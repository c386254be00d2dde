/**
 * The campaign's ad-server line-item report (`gamLineItemReport`):
 * cache-aside over the report store. A cached report is filtered and
 * returned; on a miss the customer's advertisers and the campaign's line
 * items are looked up (an empty answer caches and returns `[]`), a report
 * job is submitted over the clamped date window, polled to completion,
 * downloaded, cached unfiltered for an hour and returned filtered.
 */
module LineItemReport {

  import opened Wrappers
  import opened Seqs
  import opened Dates
  import opened ReportRows
  import opened ReportCache
  import opened ReportPolling
  import CampaignSchema

  /** The line-item lookup asks for at most this many line items (`limit: 500`). */
  const LineItemLimit: nat := 500

  /** The campaign fields the report reads. */
  datatype CampaignView = CampaignView(
    id: string,
    customerId: string,
    startDate: Option<Time>,
    endDate: Option<Time>,
    excludedGAMLineItemIds: seq<string>)

  /**
   * The clock readings of one request, each taken when its step runs: `now`
   * when the cache is read, `reportNow` from `new Date()` after the line-item
   * lookup, `fiveYearsAgo` from `moment()` moved back five years, and
   * `writeTime` when the SETEX runs, from which the entry's hour counts.
   */
  datatype Clock = Clock(now: Time, reportNow: Time, fiveYearsAgo: Time, writeTime: Time)

  /** What the collaborators answer during one request. */
  datatype Remote = Remote(
    /** The customer's `gamAdvertiserIds`; `None` when it is not an array. */
    advertiserIds: Option<seq<string>>,
    /** Ids of every line item matching the campaign, in the order the ad server lists them. */
    lineItemIds: seq<string>,
    /** The id the ad server gives the submitted report job. */
    jobId: string,
    /** The successive answers of the job status check. */
    statuses: seq<string>,
    downloadUrl: string,
    /** The downloaded CSV, parsed. */
    rows: seq<Row>)

  /** The submitted report: its date window and the line items it covers. */
  datatype ReportQuery = ReportQuery(startDate: Time, endDate: Time, lineItemIds: seq<string>)
  {
    /** The query's filter statement: the line-item ids, comma-separated, inside `IN (...)`. */
    function Statement(): (s: string)
      ensures |s| == |StatementPrefix| + |JoinIds(lineItemIds)| + 1
      ensures s[..|StatementPrefix|] == StatementPrefix
      ensures s[|StatementPrefix|..|s| - 1] == JoinIds(lineItemIds)
      ensures s[|s| - 1] == ')'
    {
      StatementPrefix + JoinIds(lineItemIds) + ")"
    }
  }

  const StatementPrefix: string := "WHERE LINE_ITEM_ID IN ("

  /** The ids separated by commas, as `Array.prototype.join(',')`. */
  function JoinIds(ids: seq<string>): string
  {
    if ids == [] then "" else if |ids| == 1 then ids[0] else ids[0] + "," + JoinIds(ids[1..])
  }

  /** Joining one more id appends a comma and that id. */
  lemma {:induction false} JoinIdsSnoc(xs: seq<string>, y: string)
    requires xs != []
    ensures JoinIds(xs + [y]) == JoinIds(xs) + "," + y
  {
    if |xs| > 1 {
      assert (xs + [y])[1..] == xs[1..] + [y];
      JoinIdsSnoc(xs[1..], y);
    } else {
      assert (xs + [y])[1..] == [y];
    }
  }

  /** Ids without commas are joined with exactly one comma between neighbours. */
  lemma {:induction false} JoinIdsSeparators(ids: seq<string>)
    requires ids != []
    requires forall i :: 0 <= i < |ids| ==> ',' !in ids[i]
    ensures multiset(JoinIds(ids))[','] == |ids| - 1
  {
    if |ids| > 1 {
      JoinIdsSeparators(ids[1..]);
      assert multiset(ids[0] + "," + JoinIds(ids[1..]))
          == multiset(ids[0]) + multiset(",") + multiset(JoinIds(ids[1..]));
      assert ',' !in ids[0];
    }
  }

  /** One call the report makes to a collaborator, in the order made. */
  datatype RemoteCall =
    | LoadCustomer(customerId: string)
    | LoadLineItems(advertiserIds: seq<string>, startDate: Option<Time>, endDate: Option<Time>, limit: nat)
    | RunReportJob(query: ReportQuery)
    | CheckReportStatus(jobId: string)
    | GetDownloadUrl(jobId: string)
    | Download(url: string)

  /**
   * The answer of one request, the store after it and the calls it made. A
   * failed request carries the poll outcome that ended it: `JobFailed`,
   * `UnknownStatus(s)`, or `StillInProgress` when the observed statuses ran
   * out; `PollErrorMessage` gives the error text of the first two.
   */
  datatype Outcome = Outcome(result: Result<seq<Row>, PollOutcome>, store: Store, calls: seq<RemoteCall>)

  /**
   * The report's date window: the campaign's start, or five years ago; the
   * campaign's end, or now, and never later than now.
   */
  function ReportWindow(startDate: Option<Time>, endDate: Option<Time>, clock: Clock): (w: (Time, Time))
    ensures w.0 == if startDate.Some? then startDate.value else clock.fiveYearsAgo
    ensures w.1 <= clock.reportNow
    ensures endDate.Some? && endDate.value <= clock.reportNow ==> w.1 == endDate.value
    ensures endDate.None? || clock.reportNow < endDate.value ==> w.1 == clock.reportNow
  {
    var start := if startDate.Some? then startDate.value else clock.fiveYearsAgo;
    var end := if endDate.Some? then endDate.value else clock.reportNow;
    (start, if end > clock.reportNow then clock.reportNow else end)
  }

  /** The line items the lookup returns: the first `LineItemLimit` matches. */
  function LineItemNodes(lineItemIds: seq<string>): (nodes: seq<string>)
    ensures |nodes| <= LineItemLimit && |nodes| <= |lineItemIds|
    ensures nodes == lineItemIds[..|nodes|]
    ensures |lineItemIds| <= LineItemLimit ==> nodes == lineItemIds
  {
    if |lineItemIds| <= LineItemLimit then lineItemIds else lineItemIds[..LineItemLimit]
  }

  predicate SubmitsNoJob(calls: seq<RemoteCall>)
  {
    forall i :: 0 <= i < |calls| ==> !calls[i].RunReportJob?
  }

  /** The advertiser lookup found none: missing, not an array, or empty. */
  predicate NoAdvertisers(remote: Remote)
  {
    remote.advertiserIds.None? || remote.advertiserIds.value == []
  }

  /** The request's cache read misses. */
  predicate IsMiss(store: Store, c: CampaignView, clock: Clock)
  {
    Lookup(store, ReportCacheKey(c.id), clock.now).None?
  }

  /**
   * One report request against `store`, as a function of everything it
   * reads: a hit is answered from the cache, a miss by `Miss`.
   */
  function Report(store: Store, c: CampaignView, remote: Remote, clock: Clock): (o: Outcome)
    // A hit answers from the cache alone: filtered, nothing called, nothing written.
    ensures !IsMiss(store, c, clock) ==>
      o == Outcome(Success(FilterResponse(Lookup(store, ReportCacheKey(c.id), clock.now).value,
                                          c.excludedGAMLineItemIds)), store, [])
    ensures IsMiss(store, c, clock) ==> o == Miss(store, c, remote, clock)
    // A failed request writes nothing to the cache.
    ensures o.result.Failure? ==> o.store == store
    // No returned row belongs to an excluded line item.
    ensures o.result.Success? ==>
      forall i :: 0 <= i < |o.result.value| ==> !IsExcluded(o.result.value[i], c.excludedGAMLineItemIds)
  {
    match Lookup(store, ReportCacheKey(c.id), clock.now)
    case Some(cached) =>
      Outcome(Success(FilterResponse(cached, c.excludedGAMLineItemIds)), store, [])
    case None => Miss(store, c, remote, clock)
  }

  /** A miss gets as far as submitting a job: advertisers were found, and line items for them. */
  predicate ReachesJob(remote: Remote)
  {
    !NoAdvertisers(remote) && LineItemNodes(remote.lineItemIds) != []
  }

  /** The job a miss submits: the report window and the line items found. */
  function JobQuery(c: CampaignView, remote: Remote, clock: Clock): ReportQuery
  {
    ReportQuery(ReportWindow(c.startDate, c.endDate, clock).0, ReportWindow(c.startDate, c.endDate, clock).1,
                LineItemNodes(remote.lineItemIds))
  }

  /** A request after its cache read missed. */
  function Miss(store: Store, c: CampaignView, remote: Remote, clock: Clock): (o: Outcome)
    // It starts by loading the customer.
    ensures |o.calls| >= 1 && o.calls[0] == LoadCustomer(c.customerId)
    // With no advertisers or no line items, `[]` is cached and returned and no job is submitted.
    ensures !ReachesJob(remote) ==>
      o.result == Success([]) && SubmitsNoJob(o.calls)
      && o.store == Written(store, ReportCacheKey(c.id), ReportTtlSeconds, [], clock.writeTime)
      && o.calls == if NoAdvertisers(remote) then [LoadCustomer(c.customerId)]
                    else [LoadCustomer(c.customerId),
                          LoadLineItems(remote.advertiserIds.value, c.startDate, c.endDate, LineItemLimit)]
    // Otherwise it looks up the customer and the line items, then submits the
    // job over the report window for the line items found ...
    ensures ReachesJob(remote) ==>
      |o.calls| >= 3
      && o.calls[..3] == [LoadCustomer(c.customerId),
                          LoadLineItems(remote.advertiserIds.value, c.startDate, c.endDate, LineItemLimit),
                          RunReportJob(JobQuery(c, remote, clock))]
    // ... polls it once per observed status up to the deciding one, and
    // succeeds exactly when that status is COMPLETED.
    ensures ReachesJob(remote) ==>
      var checks := PollReportStatus(remote.statuses).checks;
      |o.calls| >= 3 + checks
      && o.calls[3..3 + checks] == Repeat(CheckReportStatus(remote.jobId), checks)
      && (o.result.Success? <==> PollReportStatus(remote.statuses).outcome.JobCompleted?)
    // A failed poll makes no further call; a completed one then fetches the
    // download URL and downloads.
    ensures ReachesJob(remote) ==>
      var checks := PollReportStatus(remote.statuses).checks;
      if o.result.Success? then o.calls[3 + checks..] == [GetDownloadUrl(remote.jobId), Download(remote.downloadUrl)]
      else |o.calls| == 3 + checks
    // A failure is the poll outcome that ended polling, and writes nothing.
    ensures o.result.Failure? ==>
      o.result.error == PollReportStatus(remote.statuses).outcome && !o.result.error.JobCompleted?
      && o.store == store
    // A job that completed caches the unfiltered rows for an hour and returns them filtered.
    ensures o.result.Success? && !SubmitsNoJob(o.calls) ==>
      o.store == Written(store, ReportCacheKey(c.id), ReportTtlSeconds, remote.rows, clock.writeTime)
      && o.result.value == FilterResponse(remote.rows, c.excludedGAMLineItemIds)
  {
    var key := ReportCacheKey(c.id);
    var cachedEmpty := Written(store, key, ReportTtlSeconds, [], clock.writeTime);
    var customerLookup := [LoadCustomer(c.customerId)];
    if NoAdvertisers(remote) then
      Outcome(Success([]), cachedEmpty, customerLookup)
    else
      var lookups := customerLookup
        + [LoadLineItems(remote.advertiserIds.value, c.startDate, c.endDate, LineItemLimit)];
      if LineItemNodes(remote.lineItemIds) == [] then
        Outcome(Success([]), cachedEmpty, lookups)
      else
        var o := RunJob(store, key, c.excludedGAMLineItemIds, remote, clock.writeTime, lookups, JobQuery(c, remote, clock));
        FirstThreeCalls(o.calls, lookups, RunReportJob(JobQuery(c, remote, clock)));
        o
  }

  /** Two lookups followed by the job are the first three calls. */
  lemma FirstThreeCalls(calls: seq<RemoteCall>, lookups: seq<RemoteCall>, job: RemoteCall)
    requires |lookups| == 2 && |calls| > 2 && calls[..2] == lookups && calls[2] == job
    ensures calls[..3] == lookups + [job]
  {
    assert calls[..3] == calls[..2] + [calls[2]];
  }

  /** Every job a request submits covers 1 to 500 line items and never ends after now. */
  lemma JobsWithinLimits(store: Store, c: CampaignView, remote: Remote, clock: Clock)
    ensures var o := Report(store, c, remote, clock);
      forall i :: 0 <= i < |o.calls| && o.calls[i].RunReportJob? ==>
        o.calls[i].query.endDate <= clock.reportNow
        && 0 < |o.calls[i].query.lineItemIds| <= LineItemLimit
  {
    var o := Report(store, c, remote, clock);
    if IsMiss(store, c, clock) && ReachesJob(remote) {
      assert o.calls[2] == RunReportJob(JobQuery(c, remote, clock));
    }
  }

  /**
   * The job path after the lookups `before`: submit `query`, poll it, and on
   * completion fetch the download URL, download, cache the unfiltered rows
   * and return them filtered. A failed poll writes nothing.
   */
  function RunJob(store: Store, key: string, excludedIds: seq<string>, remote: Remote, writeTime: Time,
                  before: seq<RemoteCall>, query: ReportQuery): (o: Outcome)
    ensures |o.calls| > |before| && o.calls[..|before|] == before && o.calls[|before|] == RunReportJob(query)
    ensures forall i :: |before| < i < |o.calls| ==> !o.calls[i].RunReportJob?
    ensures o.result.Success? ==>
      o.store == Written(store, key, ReportTtlSeconds, remote.rows, writeTime)
      && o.result.value == FilterResponse(remote.rows, excludedIds)
    ensures o.result.Failure? ==> o.store == store
    ensures o.result.Failure? <==> !PollReportStatus(remote.statuses).outcome.JobCompleted?
    // The job is polled once per observed status up to the deciding one; a
    // failure is that poll outcome and makes no further call, a success then
    // fetches the download URL and downloads.
    ensures var poll := PollReportStatus(remote.statuses);
      |o.calls| >= |before| + 1 + poll.checks
      && o.calls[|before| + 1..|before| + 1 + poll.checks] == Repeat(CheckReportStatus(remote.jobId), poll.checks)
    ensures o.result.Failure? ==>
      o.result.error == PollReportStatus(remote.statuses).outcome
      && |o.calls| == |before| + 1 + PollReportStatus(remote.statuses).checks
    ensures o.result.Success? ==>
      o.calls[|before| + 1 + PollReportStatus(remote.statuses).checks..]
      == [GetDownloadUrl(remote.jobId), Download(remote.downloadUrl)]
  {
    var poll := PollReportStatus(remote.statuses);
    var checks := Repeat(CheckReportStatus(remote.jobId), poll.checks);
    var fetch := if poll.outcome.JobCompleted? then [GetDownloadUrl(remote.jobId), Download(remote.downloadUrl)] else [];
    CallsLayout(before, RunReportJob(query), checks, fetch);
    if poll.outcome.JobCompleted? then
      Outcome(Success(FilterResponse(remote.rows, excludedIds)),
              Written(store, key, ReportTtlSeconds, remote.rows, writeTime),
              before + [RunReportJob(query)] + checks + fetch)
    else
      Outcome(Failure(poll.outcome), store, before + [RunReportJob(query)] + checks + fetch)
  }

  /** Where each part of the job path's calls sits in the whole sequence. */
  lemma CallsLayout(before: seq<RemoteCall>, job: RemoteCall, checks: seq<RemoteCall>, fetch: seq<RemoteCall>)
    ensures var all := before + [job] + checks + fetch;
      |all| == |before| + 1 + |checks| + |fetch|
      && all[..|before|] == before && all[|before|] == job
      && all[|before| + 1..|before| + 1 + |checks|] == checks
      && all[|before| + 1 + |checks|..] == fetch
      && forall i :: |before| < i < |all| ==>
           all[i] == if i <= |before| + |checks| then checks[i - |before| - 1] else fetch[i - |before| - 1 - |checks|]
  {
  }

  /** The campaign document's fields that the report reads. */
  function View(campaign: CampaignSchema.Campaign): (v: CampaignView)
    reads campaign
    ensures v.id == campaign.id && v.customerId == campaign.customerId
    ensures v.startDate == campaign.startDate && v.endDate == campaign.endDate
    ensures v.excludedGAMLineItemIds == campaign.excludedGAMLineItemIds
  {
    CampaignView(campaign.id, campaign.customerId, campaign.startDate, campaign.endDate,
                 campaign.excludedGAMLineItemIds)
  }

  /**
   * The resolver, step by step against the shared cache: the calls it makes
   * and the store it leaves are those of `Report`.
   */
  method GamLineItemReport(campaign: CampaignSchema.Campaign, cache: Cache, remote: Remote, clock: Clock)
    returns (result: Result<seq<Row>, PollOutcome>, calls: seq<RemoteCall>)
    modifies cache
    ensures var o := Report(old(cache.entries), View(campaign), remote, clock);
      result == o.result && calls == o.calls && cache.entries == o.store
  {
    var excludedIds := campaign.excludedGAMLineItemIds;
    var cacheKey := ReportCacheKey(campaign.id);
    var fromCache := cache.Get(cacheKey, clock.now);
    if fromCache.Some? {
      return Success(FilterResponse(fromCache.value, excludedIds)), [];
    }
    calls := [LoadCustomer(campaign.customerId)];
    if remote.advertiserIds.None? || remote.advertiserIds.value == [] {
      cache.SetEx(cacheKey, ReportTtlSeconds, [], clock.writeTime);
      return Success([]), calls;
    }
    var nodes := LineItemNodes(remote.lineItemIds);
    calls := calls + [LoadLineItems(remote.advertiserIds.value, campaign.startDate, campaign.endDate, LineItemLimit)];
    if nodes == [] {
      cache.SetEx(cacheKey, ReportTtlSeconds, [], clock.writeTime);
      return Success([]), calls;
    }
    var start := if campaign.startDate.Some? then campaign.startDate.value else clock.fiveYearsAgo;
    var end := if campaign.endDate.Some? then campaign.endDate.value else clock.reportNow;
    var query := ReportQuery(start, if end > clock.reportNow then clock.reportNow else end, nodes);
    calls := calls + [RunReportJob(query)];
    var poll := PollReportStatus(remote.statuses);
    calls := calls + Repeat(CheckReportStatus(remote.jobId), poll.checks);
    if !poll.outcome.JobCompleted? {
      return Failure(poll.outcome), calls;
    }
    calls := calls + [GetDownloadUrl(remote.jobId), Download(remote.downloadUrl)];
    var json := remote.rows;
    cache.SetEx(cacheKey, ReportTtlSeconds, json, clock.writeTime);
    result := Success(FilterResponse(json, excludedIds));
  }

  /**
   * After the post-save hook deletes the campaign's key, the next request
   * misses, while every other campaign's request is answered as before.
   */
  lemma InvalidatedReportMisses(store: Store, c: CampaignView, other: CampaignView, remote: Remote, clock: Clock)
    ensures var o := Report(Deleted(store, ReportCacheKey(c.id)), c, remote, clock);
      |o.calls| >= 1 && o.calls[0] == LoadCustomer(c.customerId)
    ensures other.id != c.id ==>
      var before := Report(store, other, remote, clock);
      var after := Report(Deleted(store, ReportCacheKey(c.id)), other, remote, clock);
      after.result == before.result && after.calls == before.calls
  {
    var key := ReportCacheKey(c.id);
    var deleted := Deleted(store, key);
    assert Lookup(deleted, key, clock.now).None?;
    if other.id != c.id {
      ReportCacheKeyInjective(other.id, c.id);
      assert Lookup(deleted, ReportCacheKey(other.id), clock.now) == Lookup(store, ReportCacheKey(other.id), clock.now);
    }
  }

  /**
   * On a hit, a different exclusion list yields a different filter of the same
   * cached rows and leaves the store untouched. The exclusion list changes only
   * through a save, whose post-save hook deletes this key, so a hit under a
   * changed list happens only when that delete has not taken effect: it failed
   * (the hook swallows the error) or has not reached the store yet (the hook
   * does not wait for it). `SavedExclusionChangeReloads` is the case where it did.
   */
  lemma ExclusionChangeNeedsNoWrite(store: Store, c: CampaignView, excluded: seq<string>, remote: Remote, clock: Clock)
    requires Lookup(store, ReportCacheKey(c.id), clock.now).Some?
    ensures var cached := Lookup(store, ReportCacheKey(c.id), clock.now).value;
      var o := Report(store, c.(excludedGAMLineItemIds := excluded), remote, clock);
      o == Outcome(Success(FilterResponse(cached, excluded)), store, [])
  {
  }

  /**
   * After a save that changes the exclusion list and whose delete reaches the
   * store, the next request misses: it runs the whole fetch path again and, when
   * there are line items, submits a new job.
   */
  lemma SavedExclusionChangeReloads(store: Store, c: CampaignView, excluded: seq<string>, remote: Remote, clock: Clock)
    ensures var saved := Deleted(store, ReportCacheKey(c.id));
      var changed := c.(excludedGAMLineItemIds := excluded);
      var o := Report(saved, changed, remote, clock);
      o == Miss(saved, changed, remote, clock)
      && (ReachesJob(remote) ==> |o.calls| > 2 && o.calls[2] == RunReportJob(JobQuery(changed, remote, clock)))
  {
    var saved := Deleted(store, ReportCacheKey(c.id));
    assert Lookup(saved, ReportCacheKey(c.id), clock.now).None?;
  }

  /**
   * A request within the hour after a successful miss is answered from the
   * cache with no call, filtering the unfiltered rows the miss stored by the
   * exclusion list current at that time.
   */
  lemma CachedWithinTtl(store: Store, c: CampaignView, remote: Remote, clock: Clock,
                        excluded: seq<string>, remote2: Remote, later: Clock)
    requires Lookup(store, ReportCacheKey(c.id), clock.now).None?
    requires Report(store, c, remote, clock).result.Success?
    requires clock.writeTime <= later.now < clock.writeTime + ReportTtlSeconds * 1000
    ensures var first := Report(store, c, remote, clock);
      var stored := if SubmitsNoJob(first.calls) then [] else remote.rows;
      FilterResponse(stored, c.excludedGAMLineItemIds) == first.result.value
      && Report(first.store, c.(excludedGAMLineItemIds := excluded), remote2, later)
         == Outcome(Success(FilterResponse(stored, excluded)), first.store, [])
  {
    var first := Report(store, c, remote, clock);
    var key := ReportCacheKey(c.id);
    if SubmitsNoJob(first.calls) {
      FilterResponseNothingExcluded([]);
      assert first.store == Written(store, key, ReportTtlSeconds, [], clock.writeTime);
    } else {
      assert first.store == Written(store, key, ReportTtlSeconds, remote.rows, clock.writeTime);
    }
  }

  // Campaign C1 excludes L9 and belongs to a customer with advertiser A1.
  // Its job reports IN_PROGRESS then COMPLETED, and the download has rows
  // for L1, L9 and L2.
  const ScenarioCampaign := CampaignView("C1", "K1", Some(1704067200000), Some(1706745599999), ["L9"])
  const ScenarioRows := [LineItemRow("L1"), LineItemRow("L9"), LineItemRow("L2")]
  const ScenarioRemote := Remote(Some(["A1"]), ["L1", "L9", "L2"], "J1", [InProgress, Completed], "U1", ScenarioRows)
  const ScenarioClock := Clock(1760000000000, 1760000001500, 1602233600000, 1760000004000)
  /** The scenario campaign once its exclusions are cleared. */
  const ScenarioCleared := CampaignView("C1", "K1", Some(1704067200000), Some(1706745599999), [])
  /** Ten minutes after the first request's write. */
  const ScenarioLater := Clock(1760000604000, 1760000605000, 1602234205000, 1760000606000)

  /**
   * On a miss the scenario's request makes seven calls, caches all three
   * rows for an hour and answers the rows for L1 and L2.
   */
  lemma ScenarioFirstRequest(store: Store)
    requires ReportCacheKey("C1") !in store
    ensures Report(store, ScenarioCampaign, ScenarioRemote, ScenarioClock) ==
      Outcome(Success([LineItemRow("L1"), LineItemRow("L2")]),
              Written(store, ReportCacheKey("C1"), ReportTtlSeconds, ScenarioRows, ScenarioClock.writeTime),
              [LoadCustomer("K1"),
               LoadLineItems(["A1"], Some(1704067200000), Some(1706745599999), LineItemLimit),
               RunReportJob(ReportQuery(1704067200000, 1706745599999, ["L1", "L9", "L2"])),
               CheckReportStatus("J1"), CheckReportStatus("J1"),
               GetDownloadUrl("J1"), Download("U1")])
  {
    assert Lookup(store, ReportCacheKey("C1"), ScenarioClock.now).None?;
    assert LineItemNodes(ScenarioRemote.lineItemIds) == ["L1", "L9", "L2"];
    InProgressThenCompleted();
    ExcludeOneOfThree();
  }

  /**
   * Ten minutes later, with nothing excluded any more and the entry still in
   * the store, the same campaign is answered from the cache with all three rows
   * and no call. Clearing the exclusions saves the campaign, so the entry is
   * still there only when the post-save delete has not taken effect;
   * `ScenarioSavedThenRequest` is the case where it did.
   */
  lemma ScenarioSecondRequest(store: Store)
    ensures var cached := Written(store, ReportCacheKey("C1"), ReportTtlSeconds, ScenarioRows, ScenarioClock.writeTime);
      Report(cached, ScenarioCampaign.(excludedGAMLineItemIds := []), ScenarioRemote,
             ScenarioLater)
      == Outcome(Success(ScenarioRows), cached, [])
  {
    FilterResponseNothingExcluded(ScenarioRows);
  }

  /**
   * When the save that clears the exclusions deletes the entry, the request ten
   * minutes later submits a new job, polls and downloads again, caches the
   * rows anew and answers all three rows.
   */
  lemma ScenarioSavedThenRequest(store: Store)
    requires ReportCacheKey("C1") !in store
    ensures var first := Report(store, ScenarioCampaign, ScenarioRemote, ScenarioClock);
      var saved := Deleted(first.store, ReportCacheKey("C1"));
      Report(saved, ScenarioCampaign.(excludedGAMLineItemIds := []), ScenarioRemote, ScenarioLater)
      == Outcome(Success(ScenarioRows),
                 Written(saved, ReportCacheKey("C1"), ReportTtlSeconds, ScenarioRows, ScenarioLater.writeTime),
                 [LoadCustomer("K1"),
                  LoadLineItems(["A1"], Some(1704067200000), Some(1706745599999), LineItemLimit),
                  RunReportJob(ReportQuery(1704067200000, 1706745599999, ["L1", "L9", "L2"])),
                  CheckReportStatus("J1"), CheckReportStatus("J1"),
                  GetDownloadUrl("J1"), Download("U1")])
  {
    var first := Report(store, ScenarioCampaign, ScenarioRemote, ScenarioClock);
    assert ScenarioCampaign.(excludedGAMLineItemIds := []) == ScenarioCleared;
    ScenarioReload(Deleted(first.store, ReportCacheKey("C1")));
  }

  /** With no entry for C1, the request without exclusions reloads everything. */
  lemma ScenarioReload(saved: Store)
    requires ReportCacheKey("C1") !in saved
    ensures Report(saved, ScenarioCleared, ScenarioRemote, ScenarioLater)
      == Outcome(Success(ScenarioRows),
                 Written(saved, ReportCacheKey("C1"), ReportTtlSeconds, ScenarioRows, ScenarioLater.writeTime),
                 [LoadCustomer("K1"),
                  LoadLineItems(["A1"], Some(1704067200000), Some(1706745599999), LineItemLimit),
                  RunReportJob(ReportQuery(1704067200000, 1706745599999, ["L1", "L9", "L2"])),
                  CheckReportStatus("J1"), CheckReportStatus("J1"),
                  GetDownloadUrl("J1"), Download("U1")])
  {
    assert Lookup(saved, ReportCacheKey("C1"), ScenarioLater.now).None?;
    assert LineItemNodes(ScenarioRemote.lineItemIds) == ["L1", "L9", "L2"];
    InProgressThenCompleted();
    FilterResponseNothingExcluded(ScenarioRows);
  }

  /** The scenario's job asks for the three line items by id. */
  lemma ScenarioStatement()
    ensures JobQuery(ScenarioCampaign, ScenarioRemote, ScenarioClock).Statement()
      == "WHERE LINE_ITEM_ID IN (L1,L9,L2)"
  {
    assert LineItemNodes(ScenarioRemote.lineItemIds) == ["L1", "L9", "L2"];
    JoinIdsSnoc(["L1", "L9"], "L2");
    JoinIdsSnoc(["L1"], "L9");
  }
}

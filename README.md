# Line-item reports, campaign helpers and identity activation

This project models parts of the lead-management server and proves properties about them.

**The GAM line-item report of a campaign.** The resolver reads the shared key/value cache first. On a hit it returns the cached rows, filtered by the campaign's excluded line items. On a miss it:

1. loads the customer's GAM advertisers;
2. looks up at most 500 of their line items;
3. submits a report job over the campaign's date window, never ending after now;
4. polls the job until it completes, fails or reports an unknown status;
5. downloads the CSV rows and caches them unfiltered for one hour;
6. returns them filtered.

With no advertisers or no line items it caches and returns an empty report. Saving a campaign runs a post-save hook that deletes the campaign's cache key. A failed delete goes to the error notifier and does not fail the save.

**The campaign document.**
- The defaults.
- The `startDate`/`endDate` setters, which snap a date to the start or end of its America/Chicago day.
- The generated `fullName`.
- `getExcludeFields`: the full attribute list, minus title and company, for PR or editorial campaigns.

**The campaign resolvers.**
- The identity limit `calcMax`.
- The excluded-field list for non-admins.
- The grouping of email sends by URL and then by deployment, in order of first appearance.
- The `active` flag of a send group and of a form.
- The exclusion lists that the exclude-URL and exclude-form mutations store. They keep only the entries marked `active: false`.

**The identity mutations.** An identity can be deactivated globally or for one customer, campaign or line item. Deactivating appends the id. Activating removes every copy. An unknown identity is the error "No identity found for ID '<id>'".

**How the model is built.**
- State the source changes in place is a class: the cache client, the campaign document and the identity document.
- Anything else is a function.
- A report request is a pure function `Report` of:
  - the cache contents;
  - the campaign's fields;
  - what the remote services answer (`Remote`);
  - the clock readings the request takes: at the cache read, at `new Date()`, at `moment()`, and at the cache write.

  Its result holds the answer, the new cache contents and the sequence of remote calls made.
- The imperative resolver `GamLineItemReport` is proved to do exactly what `Report` says.
- Grouping is a loop method `GroupByKey`. It is proved against a reference definition: the key order is the deduplicated key sequence, and each group is the filter of the items by key.

## Model

| member | source | states |
|---|---|---|
| ReportRows.FilterResponse | server/src/graphql/resolvers/campaign.js:119-123 | every returned row comes from the report and is not excluded, and every non-excluded row is returned |
| ReportRows.FilterResponseExact | server/src/graphql/resolvers/campaign.js:119-123 | a row is kept, with every copy of it, exactly when its line item is not excluded, and the rows keep their download order |
| ReportRows.FilterResponseIdempotent | server/src/graphql/resolvers/campaign.js:119-123 | filtering rows already filtered with the same list changes nothing |
| ReportRows.FilterResponseNothingExcluded | server/src/graphql/resolvers/campaign.js:119-123 | with an empty exclusion list the rows come back unchanged |
| ReportRows.FilterResponseAppend | server/src/graphql/resolvers/campaign.js:119-123 | filtering a concatenation is the concatenation of the filtered parts |
| ReportRows.ExcludeOneOfThree | server/src/graphql/resolvers/campaign.js:119-123 | rows for L1, L9, L2 with L9 excluded leave the rows for L1 and L2 |
| ReportCache.ReportCacheKey | server/src/graphql/resolvers/campaign.js:127 | the key is the fixed report prefix followed by the campaign id |
| ReportCache.ReportCacheKeyInjective | server/src/graphql/resolvers/campaign.js:127 | two campaigns share a key exactly when their ids are equal |
| ReportCache.Lookup | server/src/graphql/resolvers/campaign.js:135-136 | a read finds the value exactly while the key exists and has not expired |
| ReportCache.Written | server/src/graphql/resolvers/campaign.js:129-133 | after SETEX the key reads as the value for the whole TTL and as nothing afterwards, and other keys read as before |
| ReportCache.Deleted | server/src/schema/campaign.js:295-298 | after DEL the key never reads, and other keys read as before |
| ReportCache.Cache.Get | server/src/graphql/resolvers/campaign.js:135 | GET returns the stored value exactly while it is unexpired, and changes nothing |
| ReportCache.Cache.SetEx | server/src/graphql/resolvers/campaign.js:129-133 | the new contents are the old ones with the key written for the TTL |
| ReportCache.Cache.Del | server/src/schema/campaign.js:297 | a reachable store removes the key and reports whether a live, unexpired entry was there; an unreachable one reports the error and changes nothing |
| ReportPolling.PollReportStatus | server/src/graphql/resolvers/campaign.js:60-74 | every check before the last saw IN_PROGRESS; COMPLETED, FAILED and any other status end polling exactly when seen; the outcome is StillInProgress exactly when every observed status was IN_PROGRESS |
| ReportPolling.PollErrorMessage | server/src/graphql/resolvers/campaign.js:72-73 | a FAILED job gives 'Report creation failed!' and an unknown status gives the message naming that status in quotes |
| ReportPolling.CompletesAfterInProgress | server/src/graphql/resolvers/campaign.js:70-71 | k IN_PROGRESS statuses then COMPLETED complete after exactly k + 1 checks |
| ReportPolling.FailsAfterInProgress | server/src/graphql/resolvers/campaign.js:70-72 | k IN_PROGRESS statuses then FAILED fail after exactly k + 1 checks |
| ReportPolling.UnknownFailsFast | server/src/graphql/resolvers/campaign.js:73 | an unrecognised first status is an error naming it after one check |
| ReportPolling.SubmittedIsUnknown | server/src/graphql/resolvers/campaign.js:70-73 | a SUBMITTED status is not waited on; it is an unknown-status error |
| ReportPolling.InProgressThenCompleted | server/src/graphql/resolvers/campaign.js:70-71 | IN_PROGRESS then COMPLETED takes exactly two checks |
| ReportPolling.TwoInProgressThenCompleted | server/src/graphql/resolvers/campaign.js:70-71 | two IN_PROGRESS statuses then COMPLETED take exactly three checks |
| LineItemReport.ReportWindow | server/src/graphql/resolvers/campaign.js:157-167 | the window starts at the start date or five years ago, and ends at the end date or the `new Date()` reading, never after that reading |
| LineItemReport.LineItemNodes | server/src/graphql/resolvers/campaign.js:143-150 | the lookup yields a prefix of the matching line items, at most 500 long, and all of them when there are no more than 500 |
| LineItemReport.ReportQuery.Statement | server/src/graphql/resolvers/campaign.js:166 | the statement is the fixed WHERE LINE_ITEM_ID IN ( prefix, the joined ids, and a closing parenthesis |
| LineItemReport.JoinIdsSnoc | server/src/graphql/resolvers/campaign.js:166 | joining one more id appends a comma and that id |
| LineItemReport.JoinIdsSeparators | server/src/graphql/resolvers/campaign.js:166 | ids without commas are joined with exactly one comma between neighbours |
| LineItemReport.Report | server/src/graphql/resolvers/campaign.js:115-209 | a hit returns the cached rows filtered, with no call and no write; a miss is answered as Miss; a failed request writes nothing; no returned row is excluded |
| LineItemReport.Miss | server/src/graphql/resolvers/campaign.js:138-208 | the customer is loaded first; with no advertisers, an empty report is cached and returned after that one call, and with no line items after the customer and line-item calls; otherwise the customer, the line items and then the job over the report window and the line items found, then one status check per observed status up to the deciding one; the request succeeds exactly when that status is COMPLETED, and then fetches the download URL, downloads, caches the unfiltered rows for an hour from the write and returns them filtered; a failure is the poll outcome that ended polling, makes no further call and writes nothing |
| LineItemReport.JobsWithinLimits | server/src/graphql/resolvers/campaign.js:143-167 | every job a request submits covers 1 to 500 line items and ends no later than the `new Date()` reading |
| LineItemReport.RunJob | server/src/graphql/resolvers/campaign.js:169-208 | after the lookups exactly one job is submitted, then one status check per observed status up to the deciding one; a failure is that poll outcome, makes no further call and leaves the cache untouched; a success fetches the download URL, downloads, caches the rows and returns them filtered |
| LineItemReport.View | server/src/graphql/resolvers/campaign.js:117-119 | the report reads the campaign's id, customer, start and end dates and excluded line items |
| LineItemReport.GamLineItemReport | server/src/graphql/resolvers/campaign.js:115-209 | the resolver's answer, the calls it makes and the cache contents it leaves are those of Report on the cache contents before the call |
| LineItemReport.InvalidatedReportMisses | server/src/schema/campaign.js:295-298 | after the hook deletes a campaign's key the next request for it misses, while every other campaign's request gives the same answer and calls as before |
| LineItemReport.ExclusionChangeNeedsNoWrite | server/src/graphql/resolvers/campaign.js:119-136 | while the entry is still stored, a changed exclusion list only changes the filter, with no call and no write; since changing the list saves the campaign, the entry is still stored only when the post-save delete failed or has not yet reached the store |
| LineItemReport.SavedExclusionChangeReloads | server/src/schema/campaign.js:295-298 | after a save that changes the exclusion list and whose delete reaches the store, the next request is a miss and, when there are line items, submits a new job |
| LineItemReport.CachedWithinTtl | server/src/graphql/resolvers/campaign.js:127-136 | within the hour after a successful miss wrote its entry, the request is answered from the cache with no call, filtering the stored unfiltered rows by the current exclusions |
| LineItemReport.ScenarioFirstRequest | server/src/graphql/resolvers/campaign.js:115-209 | a concrete miss makes the seven expected calls, caches all three rows and returns the two non-excluded ones |
| LineItemReport.ScenarioSecondRequest | server/src/graphql/resolvers/campaign.js:127-136 | ten minutes later with no exclusions and the entry still stored, that is with the save's delete not taken effect, the same campaign is answered with all three cached rows and no call |
| LineItemReport.ScenarioSavedThenRequest | server/src/graphql/resolvers/campaign.js:595-602 | when the save that clears the exclusions deletes the entry, the request ten minutes later makes the seven calls again, caches the rows anew and answers all three rows |
| LineItemReport.ScenarioReload | server/src/graphql/resolvers/campaign.js:115-209 | with no entry for the campaign, the request without exclusions makes the seven calls, caches the rows and answers all three |
| LineItemReport.ScenarioStatement | server/src/graphql/resolvers/campaign.js:166 | the scenario job's statement names L1, L9 and L2 |
| Dates.StartOfDay | server/src/schema/campaign.js:208 | the result is a day boundary at or before the instant, less than one day earlier |
| Dates.EndOfDay | server/src/schema/campaign.js:215 | the result is the last millisecond of the instant's day |
| Dates.DayBoundsIdempotent | server/src/schema/campaign.js:204-217 | snapping to a day boundary twice is snapping once, and the start of a day's end is that day's start |
| CampaignSchema.StartDateSetter | server/src/schema/campaign.js:204-210 | a Date becomes the start of its day; anything else unsets the field |
| CampaignSchema.EndDateSetter | server/src/schema/campaign.js:211-217 | a Date becomes the end of its day; anything else unsets the field |
| CampaignSchema.DateSettersStable | server/src/schema/campaign.js:204-217 | assigning a setter's output again changes nothing, and the same date as start and end spans one whole day |
| CampaignSchema.DateName | server/src/schema/campaign.js:278-286 | the four date-part cases: both dates, start only (quoted), end only, and neither |
| CampaignSchema.NamePart | server/src/schema/campaign.js:276 | a non-empty name gives ': ' followed by the name, and otherwise nothing |
| CampaignSchema.CreateFullName | server/src/schema/campaign.js:267-289 | the full name is the customer name, then the name part, then ' (', the date part and ')' |
| CampaignSchema.EditorialRows | server/src/schema/campaign.js:178 | dropping title and companyName removes exactly the table's fourth and fifth rows |
| CampaignSchema.EditorialExcludeFieldsFromTable | server/src/schema/campaign.js:178 | the keys of the remaining attributes, in table order, are the editorial list |
| CampaignSchema.EditorialExcludeFieldsDistinct | server/src/schema/campaign.js:178 | the editorial list has 11 distinct keys and holds neither title nor companyName |
| CampaignSchema.EditorialExcludeFieldsCover | server/src/schema/campaign.js:178 | every attribute key other than title and companyName is in the editorial list |
| CampaignSchema.GetExcludeFields | server/src/schema/campaign.js:174-179 | without a PR tag and not editorial, the stored excludeFields are returned; otherwise, every attribute key except title and companyName, in table order |
| CampaignSchema.Campaign.constructor | server/src/schema/campaign.js:69-222 | a new campaign carries the defaults: no excluded line items, excludeFields of phoneNumber, allowed link types Advertising and (Not Set), a maximum of 200 identities, and no dates |
| CampaignSchema.Campaign.AssignStartDate | server/src/schema/campaign.js:204-210 | assigning startDate stores the setter's result |
| CampaignSchema.Campaign.AssignEndDate | server/src/schema/campaign.js:211-217 | assigning endDate stores the setter's result |
| CampaignSchema.Campaign.SetFullName | server/src/schema/campaign.js:291-293 | the pre-validate hook stores the generated full name |
| CampaignSchema.Campaign.ClearReportCache | server/src/schema/campaign.js:295-298 | the hook deletes the campaign's report key; a failed delete is handed to the notifier and the cache is unchanged |
| CampaignSchema.Campaign.Save | server/src/schema/campaign.js:291-298 | saving sets the full name and resolves to the campaign, deleting the report key when the store answers and noticing the error otherwise |
| IdentityAttributes.TableShape | server/src/services/identity-attributes.js:1-16 | the table has 13 attributes with distinct keys, including title and companyName, and no NAICS attribute |
| IdentityAttributes.TableKeys | server/src/services/identity-attributes.js:1-16 | the keys in table order |
| IdentityAttributes.AdminOnlyRows | server/src/services/identity-attributes.js:12 | the phone-number row is the only admin-only row |
| IdentityAttributes.AdminOnlyKeysFromTable | server/src/services/identity-attributes.js:1-16 | the admin-only keys, in table order, are exactly phoneNumber |
| CampaignResolvers.CalcMax | server/src/graphql/resolvers/campaign.js:24-28 | a non-admin gets the requested limit when it lies in 1..200 and 200 otherwise; an admin gets any positive request and 0 otherwise |
| CampaignResolvers.CalcMaxIdempotent | server/src/graphql/resolvers/campaign.js:24-28 | a limit returned by calcMax is returned unchanged when passed back in |
| CampaignResolvers.HandleExcludedFields | server/src/graphql/resolvers/campaign.js:48-58 | the list has no duplicates and holds a field exactly when it was requested or, for a non-admin, is admin-only |
| CampaignResolvers.HandleExcludedFieldsStable | server/src/graphql/resolvers/campaign.js:48-58 | passing a computed list back in returns the same list |
| CampaignResolvers.SendGroups | server/src/graphql/resolvers/campaign.js:281 | every send is paired, in order, with the campaign's exclusion list |
| CampaignResolvers.UrlGroups | server/src/graphql/resolvers/campaign.js:331-349 | no campaign gives no groups; otherwise one group per URL in order of first appearance, holding exactly that URL's sends in order and the exclusion list (empty when unset) |
| CampaignResolvers.DeploymentGroups | server/src/graphql/resolvers/campaign.js:274-288 | one group per deployment in order of first appearance, holding exactly that deployment's sends in order, each paired with the exclusion list |
| CampaignResolvers.FindExclusion | server/src/graphql/resolvers/campaign.js:301 | the first exclusion naming the send's URL and send, or none exactly when no exclusion names them |
| CampaignResolvers.SendGroupActive | server/src/graphql/resolvers/campaign.js:299-304 | a send group is active exactly when no exclusion names its URL and send |
| CampaignResolvers.StoredExcludeUrls | server/src/graphql/resolvers/campaign.js:791 | the stored list is a subsequence of the input holding every entry marked active false as many times as it was submitted, and nothing else |
| CampaignResolvers.ExcludedUrlsRoundTrip | server/src/graphql/resolvers/campaign.js:299-304 | once the list is stored, a send group reads inactive exactly when some submitted entry for its URL and send was marked active false |
| CampaignResolvers.ExcludeFormIds | server/src/graphql/resolvers/campaign.js:803 | position by position, the form ids of the entries marked active false, in input order with copies kept; every stored id comes from such an entry and every such entry's id is stored |
| CampaignResolvers.FormEntries | server/src/graphql/resolvers/campaign.js:400-408 | one entry per eligible form, in order, active exactly when its id is not in the exclusion list (no list: all active) |
| CampaignResolvers.FormExclusionRoundTrip | server/src/graphql/resolvers/campaign.js:400-408 | once the ids are stored, a form reads inactive exactly when some submitted entry for it was marked active false |
| Grouping.GroupByKey | server/src/graphql/resolvers/campaign.js:338-348 | the keys come out in order of first appearance without repeats, the groups exist for exactly those keys, and each group holds exactly the items with its key, in order |
| Grouping.GroupHoldsItsItems | server/src/graphql/resolvers/campaign.js:277-283 | every item lands in its key's group as many times as it occurs |
| Grouping.NoKeyNoItems | server/src/graphql/resolvers/campaign.js:338-344 | a key no item carries has an empty group |
| IdentityResolvers.NotFound | server/src/graphql/resolvers/identity.js:113 | the message is the fixed text followed by the quoted identity id |
| IdentityResolvers.Deactivated | server/src/graphql/resolvers/identity.js:126-127 | deactivating appends the id as the last element, even when it is already listed, and keeps every other element and count |
| IdentityResolvers.Reactivated | server/src/graphql/resolvers/identity.js:128-131 | activating removes every copy of the id and keeps every copy of every other id, in order |
| IdentityResolvers.ReactivateUndoesDeactivate | server/src/graphql/resolvers/identity.js:126-131 | deactivating then activating equals activating alone, and restores a list that did not hold the id |
| IdentityResolvers.ActivationIsolated | server/src/graphql/resolvers/identity.js:126-131 | each mutation decides the activity of its own id and leaves every other id as it was |
| IdentityResolvers.IdentityActivation | server/src/graphql/resolvers/identity.js:109-116 | an unknown id is the not-found error; otherwise only the global flag changes, to the negation of active |
| IdentityResolvers.IdentityCustomerActivation | server/src/graphql/resolvers/identity.js:121-133 | an unknown id is the not-found error; otherwise the customer id is appended or removed and nothing else changes |
| IdentityResolvers.IdentityCampaignActivation | server/src/graphql/resolvers/identity.js:138-150 | an unknown id is the not-found error; otherwise the campaign id is appended or removed and nothing else changes |
| IdentityResolvers.IdentityLineItemActivation | server/src/graphql/resolvers/identity.js:155-172 | an unknown id is the not-found error; otherwise a missing list counts as empty, the line-item id is appended or removed, and the list is always written back |
| IdentityResolvers.LookupInactive | server/src/graphql/resolvers/identity.js:23-45 | a missing or empty list loads nothing; otherwise every listed id is loaded |
| IdentityResolvers.LookupAfterActivation | server/src/graphql/resolvers/identity.js:23-45 | after a deactivation the id is loaded; activating the only listed id leaves nothing to load |

## Left out

- GraphQL wiring, `auth.check()`, `findById`/`findOne` and persistence: each is represented by its outcome (a found flag, a possibly-null identity) or left out.
- The GAM client, the line-item lookup criteria, `fetch` and CSV parsing: their answers are the `Remote` parameter, and the rows are taken as parsed.
- The Brightcove and email-report services that produce eligible forms and email sends: their results are parameters.
- Calendar formatting and time zones: `format` is a parameter, and a day is a fixed multiple of milliseconds. The model does not capture daylight-saving days or the day granularity of the report's `YYYY-MM-DD` dates.
- The cache's concurrency and the post-save hook's fire-and-forget ordering: the model runs the delete before `save` resolves.
- Failed GET and SETEX commands are not modelled. In the source a failed GET or SETEX rejects the request. Failed DEL is modelled.
- The JSON serialisation round trip of cached rows: rows are stored as values.
- Transport errors of the remote calls.
- LineItemReport.Report: polling is unbounded in the source. The model polls over a finite sequence of statuses, and when that sequence runs out in IN_PROGRESS the request fails with the poll outcome `StillInProgress`.
- Pagination beyond the first 500 line items.
- LineItemReport.Report: a customer the loader cannot find makes the source throw a TypeError and cache nothing. `Remote` has no case for it, so the model does not capture that failure.
- CampaignSchema.CreateFullName: the customer's name is a parameter. The TypeError of a missing customer is not modelled.
- Grouping.GroupByKey: keys come out in order of first appearance. The object-key ordering, which puts integer-like keys first in ascending order, is not modelled.
- Mongoose casting and validation of stored values, and `save()` validation failures.
- The dataloader that batches identity lookups.
- CampaignResolvers.CalcMax: the limit is an integer. Non-integer and NaN arguments are not modelled.

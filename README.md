# Campaign analytics core, in Dafny

This project models the back end of an advertising-campaign manager. It is an
Express and Mongoose service. Its core is the analytics aggregation engine and
the access, validation and pagination rules around it:

- **Analytics.** The event log is a sequence of events. Every aggregation
  pipeline (`$match`, `$group`, `$sort`, `$limit`) is a fold over that
  sequence. The model covers:
  - the per-campaign summary, with counts per event type, click-through and
    conversion rates, and the conversion value;
  - the overview, over every campaign a user may see;
  - the time series pivoted into zero-filled rows per date bucket;
  - the device and country breakdowns;
  - the top-five campaign ranking;
  - the simulated-data generator.

  `$group` output order is unspecified, so the formatting loops accept any
  grouping that satisfies a predicate (`Stats.IsTypeGrouping`,
  `TimeSeries.IsBucketGrouping`). An unbroken `$sort` is any order consistent
  with descending impressions (`Breakdown.IsRanking`).
- **Rates.** A rate is `Zero` (the number 0 left when the denominator is 0) or
  `Fixed(h)` (the `toFixed(2)` string worth `h` hundredths of a percent). The
  rate is rounded exactly to the nearest hundredth, with ties going up. One
  function, `Rates.Rate`, serves both the campaign summary and the overview.
- **Access.** The model covers Bearer-header authentication, the admin and
  owner checks (404 is decided before 403), and the self-or-admin profile
  update.
- **Campaigns.** The model covers the schema validators and defaults, the
  virtual fields, create, update, delete and creative creation, the listing
  query, and the statistics fold.
- **Listings.** Campaign and user listings share the pagination arithmetic.
- **Configuration.** The environment defaults and the CORS origin list.

Stateful parts of the source are classes whose methods are proved against the
functions above:

- `Events.EventCollection`: the event collection.
- `Campaigns.CampaignStore` and `Users.UserStore`: the campaign and user
  collections.
- `Access.Request`: `req.user`.
- `Documents.JsonObject`: the `toJSON` transform.
- `Campaigns.CampaignDocument`: `Object.assign` on a campaign.

Loops become methods with invariants:

- `Stats.FormatStats`: the summary `forEach`.
- `TimeSeries.Format` and `TimeSeries.Pivot`: the time-series dictionary.
- `Generator.Generate`, `Generator.SimulateDay` and `Generator.Push`: the
  generator's nested loops.
- `Analytics.AttachCampaigns`: the top-campaign `populate` loop, over an array.

Outside inputs are parameters:

- the clock, as `clock(day)`: the `new Date()` read on day `day`;
- `Math.random()`, as `rand(i)`: the i-th draw, a multiple of 2^-53 in [0, 1);
- `$dateToString`;
- token verification;
- the case-insensitive regular-expression match;
- the process environment.

The code differs from the documented behaviour in two places, and the model
follows the code:

- **Generated timestamps.** The generator's day 0 events fall in the 24 hours
  *after* the moment of generation (`Generator.TodayReachesAhead`), not in
  the day before it.
- **404 before 403.** The campaign checks answer 404 before 403, so an outsider
  can tell whether a campaign exists (`Access.CampaignAccessRevealsExistence`).
  The profile update decides 403 before any lookup and hides existence
  (`Users.UpdateRefusalHidesExistence`).

## Model

| member | source | states |
|---|---|---|
| Rates.Rate | src/models/AnalyticsEvent.js:105-113 | the rate is `Zero` exactly when the denominator is 0; otherwise it is the hundredths `h` with `h/100` the nearest two-decimal value of part/whole·100, ties going up |
| Rates.RateAtMostHundred | src/models/AnalyticsEvent.js:106-113 | a part no larger than its whole gives at most 100.00 |
| Rates.RateExact | src/models/AnalyticsEvent.js:107 | the rate is the exact percentage whenever that percentage has at most two decimals |
| Events.ParseEventType | src/models/AnalyticsEvent.js:14-18 | an accepted event-type name is the name of the type it yields |
| Events.ParseEventTypeRoundTrip | src/models/AnalyticsEvent.js:14-18 | each of the four types is accepted by its own name and yields itself |
| Events.ParseDeviceType | src/models/AnalyticsEvent.js:25-28 | only `desktop`, `mobile` and `tablet` are accepted, each as its own device |
| Events.NewEvent | src/models/AnalyticsEvent.js:3-41 | an event is created iff campaign and a valid eventType are given and any deviceType is valid; timestamp defaults to now, value to 0; a missing campaign is the reported error |
| Events.CountsPartition | src/models/AnalyticsEvent.js:75-84 | the four per-type counts add up to the number of events |
| Events.CountPositive | src/models/AnalyticsEvent.js:87-103 | a type's count is positive exactly when an event of that type exists |
| Events.CountAppend | src/models/AnalyticsEvent.js:80 | counts of a concatenation add up |
| Events.Matching | src/models/AnalyticsEvent.js:64-73 | an event passes `$match` iff its campaign is in scope and, when both bounds are given, its timestamp lies in [start, end] |
| Events.MatchingSingleton | src/models/AnalyticsEvent.js:64-73 | a single event passes exactly when it matches |
| Events.MatchingAppend | src/models/AnalyticsEvent.js:64-73 | `$match` distributes over concatenation, so with the singleton case it keeps each matching event once, in log order |
| Events.EmptyScopeSeesNothing | src/controllers/analyticsController.js:75-78 | a scope of no campaigns matches no event, whatever the window |
| Events.HalfOpenWindowIgnored | src/models/AnalyticsEvent.js:68-73 | with a missing bound, the time filter is not applied |
| Events.EventCollection.Create | src/controllers/analyticsController.js:146-158 | a valid event is appended with its defaults; an invalid one leaves the log unchanged |
| Events.EventCollection.InsertMany | src/controllers/analyticsController.js:250 | the events are appended to the log in order |
| Stats.TypeGroups | src/models/AnalyticsEvent.js:75-84 | is a valid `$group` by event type: one row per present type, with its count and value sum |
| Stats.FormatStats | src/models/AnalyticsEvent.js:87-113 | whatever the order of the groups, the formatted result is the summary of the grouped events: per-type counts, 0 for absent types, conversion value only, both rates |
| Stats.AggregatedStats | src/models/AnalyticsEvent.js:63-116 | `getAggregatedStats` is the summary of the campaign's events in the window, and its four counts add up to the number of those events |
| Stats.RatesZeroIffNoDenominator | src/models/AnalyticsEvent.js:106-113 | ctr is 0 iff there are no impressions; conversionRate is 0 iff there are no clicks |
| Stats.TotalValueIgnoresOtherTypes | src/models/AnalyticsEvent.js:97-103 | changing the value of non-conversion events never changes the summary |
| Stats.SummaryScenario | src/models/AnalyticsEvent.js:87-113 | 100 impressions, 5 clicks and a conversion worth 50 give ctr 5.00, conversionRate 20.00 and totalValue 50 |
| Breakdown.GroupBy | src/controllers/analyticsController.js:332-348 | the conditional-count `$group` has distinct keys, and the row for a key exists iff some event has it, with that key's counts |
| Breakdown.GroupRows | src/controllers/analyticsController.js:332-348 | every event falls in exactly one group (unset key included), and every group has an event and its per-type counts |
| Breakdown.GroupTotals | src/controllers/analyticsController.js:335-346 | the groups' impressions, clicks and conversions add up to the totals of the events |
| Breakdown.GroupKeyOccurs | src/controllers/analyticsController.js:393-394 | every group row stands for at least one grouped event |
| Breakdown.SortDesc | src/controllers/analyticsController.js:377 | the rows are sorted by descending impressions and form a permutation of the input |
| Breakdown.TopIsRanking | src/controllers/analyticsController.js:377-378 | the sort and limit return min(n, rows) rows, descending, drawn from the input, and no row left out beats a returned one |
| Breakdown.RankingBounded | src/controllers/analyticsController.js:406-407 | any ranking has at most `n` rows, each one of the input rows |
| Breakdown.RankingScenario | src/controllers/analyticsController.js:406-407 | with rows at 100 and 50 impressions, a limit of 1 returns exactly the first |
| TimeSeries.UnknownGroupByIsDay | src/controllers/analyticsController.js:278-293 | an unrecognised `groupBy` uses the `%Y-%m-%d` format, the same as `day` |
| TimeSeries.BucketKeys | src/controllers/analyticsController.js:306 | the bucket keys are strictly ascending, and a key is present iff some event falls in that bucket |
| TimeSeries.BucketGroups | src/controllers/analyticsController.js:295-307 | is a valid `$group`/`$sort` output: positive counts per (bucket, type) pair, no pair twice, buckets ascending, every event's pair present |
| TimeSeries.Format | src/controllers/analyticsController.js:310-317 | the dictionary has one row per bucket of the groups, each holding the counts of its groups, and the keys are inserted in ascending order |
| TimeSeries.Pivot | src/controllers/analyticsController.js:309-319 | rows are strictly ascending by bucket; each is the bucket's zero-filled counts, with views only if present; there is one row per bucket with events and none otherwise |
| TimeSeries.TimeSeriesData | src/controllers/analyticsController.js:267-320 | the time series is such a series over the campaign's events in the window |
| TimeSeries.NoEventsNoSeries | src/controllers/analyticsController.js:309-319 | without events there are no rows |
| Generator.Pick | src/controllers/analyticsController.js:204 | `Math.floor(Math.random() * n)` is an index below `n` |
| Generator.ClicksBounds | src/controllers/analyticsController.js:214 | the click count is at least 2% and under 5% of the impressions, up to rounding down |
| Generator.ConversionsBounds | src/controllers/analyticsController.js:231 | the conversion count is at least 5% and at most 10% of the clicks, up to rounding down |
| Generator.PlanRates | src/controllers/analyticsController.js:197-231 | a day draws 500 to 1499 impressions, then clicks at 2-5% of them, then conversions at 5-10% of the clicks |
| Generator.Push | src/controllers/analyticsController.js:198-211 | an inner loop appends exactly the block of `n` events of its type and consumes the draws they use |
| Generator.SimulateDay | src/controllers/analyticsController.js:192-246 | the body of the day loop appends that day's impressions, clicks and conversions |
| Generator.Generate | src/controllers/analyticsController.js:186-247 | the generated events are the simulated run of `days` days (none when `days` < 1) |
| Generator.SimEventPlausible | src/controllers/analyticsController.js:199-244 | each generated event has the campaign, a time within the day, a listed device, country and city, and a value of 20-119 for a conversion and 0 otherwise |
| Generator.DayFunnel | src/controllers/analyticsController.js:196-246 | within a day, clicks are 2-5% of impressions and conversions 5-10% of clicks, so clicks ≤ impressions and conversions ≤ clicks |
| Generator.DayVolume | src/controllers/analyticsController.js:197 | a day has 500 to 1499 impressions and no views |
| Generator.SimulatedPlausible | src/controllers/analyticsController.js:192-246 | every generated event is plausible for one of the `days` days |
| Generator.SimulatedVolume | src/controllers/analyticsController.js:192-211 | a run of `days` days has between 500·days and 1499·days impressions and no views |
| Generator.TodayReachesAhead | src/controllers/analyticsController.js:193-202 | day 0's events lie in [now, now + 24h) |
| Access.CampaignAccess | src/controllers/campaignController.js:64-77 | a missing campaign gives 404; otherwise access is allowed iff admin or owner, and refused with 403 |
| Access.CampaignAccessRevealsExistence | src/controllers/campaignController.js:64-77 | an outsider gets 404 for a missing campaign and 403 for an existing one |
| Access.RequireAdmin | src/middleware/auth.js:53-61 | passes iff the role is `admin`, otherwise 403 |
| Access.RequireOwnershipOrAdmin | src/middleware/auth.js:66-89 | no resource gives 404; the field defaults to `owner`; a missing field fails (500) even for admins; otherwise passes iff owner or admin, else 403 |
| Access.OwnershipMiddlewareAgrees | src/middleware/auth.js:66-89 | with the owner field present, the middleware decides exactly as the controllers' campaign check |
| Access.BearerToken | src/middleware/auth.js:12-19 | a token is extracted iff the header starts with `Bearer `, and the header is that prefix followed by the token |
| Access.BearerRoundTrip | src/middleware/auth.js:19 | the prefix followed by any token yields that token |
| Access.Authentication | src/middleware/auth.js:7-48 | succeeds iff a Bearer token verifies and its user exists and is active, with the token's user id and role; every failure is 401 |
| Access.NoBearerNoEntry | src/middleware/auth.js:12-17 | no header, or one without the prefix, is 401 whatever the verifier accepts |
| Access.Request.Authenticate | src/middleware/auth.js:34-40 | on success `req.user` is set to the token's principal; on failure it is left unchanged |
| Paging.Requested | src/controllers/campaignController.js:9 | page defaults to 1 and limit to 10 |
| Paging.Filter | src/controllers/campaignController.js:31-37 | the result holds exactly the selected documents of the input |
| Paging.FilterSingleton | src/controllers/campaignController.js:31-37 | a single document is kept exactly when it is selected |
| Paging.FilterAppend | src/controllers/campaignController.js:31-37 | filtering distributes over concatenation, so with the singleton case the selected documents appear each once, in input order |
| Paging.FilterAll | src/controllers/userController.js:26-31 | a query that selects everything returns every document |
| Paging.Page | src/controllers/campaignController.js:33-34 | fails iff the skip `(page-1)·limit` is negative; otherwise the page is the documents from the skip on, at most `|limit|` of them (all when the limit is 0) |
| Paging.PageCount | src/controllers/campaignController.js:47 | `Math.ceil(total/limit)`: null when limit is 0; the least count of pages covering total when limit > 0 |
| Paging.EveryItemOnItsPage | src/controllers/campaignController.js:33-34 | the document at position i is entry `i % limit` of page `i / limit + 1` |
| Paging.ItemPageWithinCount | src/controllers/campaignController.js:47 | that page is within the reported page count |
| Paging.PagesBeyondCountAreEmpty | src/controllers/campaignController.js:33-47 | pages past the reported count are empty |
| Paging.List | src/controllers/campaignController.js:31-48 | fails iff the skip is negative; otherwise the items are the page at skip `(page-1)·limit` of the selected documents, at most `\|limit\|` of them; total is the number of selected documents, pages is its page count, and page and limit are echoed |
| Config.Setting | src/config/env.js:29-36 | `process.env[name] \|\| fallback`: the variable when set and non-empty, else the fallback |
| Config.AllowedOrigins | src/config/env.js:16-26 | unset gives the four local origins; otherwise one origin per comma-separated piece (commas + 1), each the piece trimmed |
| Config.OriginsAreTrimmed | src/config/env.js:25 | no origin has white space at either end |
| Config.OriginsJoinBack | src/config/env.js:25 | when no piece has surrounding white space, joining the origins with commas gives the variable back |
| Config.Load | src/config/env.js:4-41 | a missing `MONGO_URI` is the fatal error; otherwise the URI and origins are kept, the port is the `PORT` text or else the number 5000, and nodeEnv and the four JWT settings are their variables or else their defaults |
| Config.OnlyMongoUriGivesDefaults | src/config/env.js:28-41 | with only `MONGO_URI` set, every other setting is its default |
| Config.WarningMeansDefaultSecret | src/config/env.js:11-13 | the warning is given exactly when production runs with the default secret without having set it |
| Documents.Serialised | src/models/AnalyticsEvent.js:47-52 | `id` takes the value of `_id`; `_id` and `__v` are removed; every other field is unchanged |
| Documents.SerialisedRoundTrip | src/models/AnalyticsEvent.js:47-52 | renaming `id` back to `_id` restores the document without `__v` |
| Documents.JsonObject.Transform | src/models/Campaign.js:71-76 | the object is changed in place into its serialised form |
| Campaigns.ParseStatus | src/models/Campaign.js:11-15 | exactly the four status names are accepted, each as its own status |
| Campaigns.Validate | src/models/Campaign.js:5-65 | fails iff some validator fails, reporting exactly the failed validators, with name and description lengths counted in UTF-16 code units; a success is a valid campaign with those fields |
| Text.Utf16Length | src/models/Campaign.js:9 | JavaScript's `length`: between one and two units per character, one each for characters up to U+FFFF, two each for characters above |
| Campaigns.WideCharactersCountTwice | src/models/Campaign.js:9 | a name of 51 characters above U+FFFF is 102 units long, so it is rejected as too long |
| Campaigns.ValidCampaignsPass | src/models/Campaign.js:5-65 | a valid campaign passes validation unchanged |
| Campaigns.RemainingBudget | src/models/Campaign.js:82-84 | remaining plus spent is the budget |
| Campaigns.BudgetUtilization | src/models/Campaign.js:87-89 | 0 when the budget is not positive, otherwise spent/budget·100 |
| Campaigns.UtilizationWithinBudget | src/models/Campaign.js:82-89 | utilization is at most 100 iff the remaining budget is not negative |
| Campaigns.Duration | src/models/Campaign.js:92-95 | the ceiling of the date difference in days: (days-1)·24h < difference ≤ days·24h |
| Campaigns.DurationAtLeastOneDay | src/models/Campaign.js:35-44 | a valid campaign (end strictly after start) lasts at least one day |
| Campaigns.NewCampaign | src/controllers/campaignController.js:97-104 | creation fails iff some validator rejects the body with the schema defaults and the requester as owner, and reports exactly those violations; a created campaign is valid, owned by the requester, with the body's trimmed name, budget, dates and description, and the body's status, spent, currency and archive flag or else their defaults |
| Campaigns.NewCampaignNameTrimmed | src/models/Campaign.js:5-10 | a created campaign's name is the given name trimmed |
| Campaigns.CreateIgnoresBodyOwner | src/controllers/campaignController.js:99-102 | an owner in the body has no effect |
| Campaigns.PatchedIdentityAndIdempotent | src/controllers/campaignController.js:139 | an empty body changes nothing, and applying a body twice is applying it once |
| Campaigns.PatchedKeepsAbsentFields | src/controllers/campaignController.js:139 | each of the ten fields absent from the body keeps its value |
| Campaigns.PatchedOverwritesGivenFields | src/controllers/campaignController.js:139 | each of the ten fields present in the body takes the body's value, the name trimmed |
| Campaigns.UpdatedCampaign | src/controllers/campaignController.js:139-140 | the save fails iff some validator rejects the assigned document, and reports exactly those violations; a saved campaign is valid and carries exactly the assigned fields |
| Campaigns.EmptyUpdateKeepsCampaign | src/controllers/campaignController.js:139-140 | an empty update saves the campaign unchanged |
| Campaigns.CreativeFor | src/controllers/campaignController.js:209-212 | the creative is the body with `campaign` forced to the path id |
| Campaigns.CampaignDocument.Assign | src/controllers/campaignController.js:139 | the document's fields become the body applied over them |
| Campaigns.CampaignStore.Get | src/controllers/campaignController.js:59-92 | 404 or 403 by the campaign check, otherwise the stored campaign and exactly the creatives that belong to it |
| Campaigns.CampaignStore.Create | src/controllers/campaignController.js:97-114 | stores the new campaign on success and nothing on failure; every stored campaign stays valid |
| Campaigns.CampaignStore.Update | src/controllers/campaignController.js:119-150 | 404/403 change nothing; otherwise the saved update replaces the campaign, or nothing changes on a validation failure |
| Campaigns.CampaignStore.Delete | src/controllers/campaignController.js:155-183 | 404/403 change nothing; otherwise exactly that campaign is removed |
| Campaigns.CampaignStore.AddCreative | src/controllers/campaignController.js:188-222 | 404/403 create nothing; otherwise one creative for the campaign is appended |
| Campaigns.ListQuery | src/controllers/campaignController.js:11-29 | the query always excludes archived campaigns, restricts non-admins to their own, and filters status and name only when given |
| Campaigns.ListingSelectsExactly | src/controllers/campaignController.js:13-29 | a campaign is selected iff unarchived, visible to the requester, and matching the given status and name search |
| Campaigns.ListedCampaignsVisible | src/controllers/campaignController.js:31-48 | every listed campaign is unarchived and owned by the requester unless admin |
| Campaigns.Totals | src/controllers/campaignController.js:236-244 | totalCampaigns is the number of campaigns, and activeCampaigns does not exceed it |
| Campaigns.TotalsAppend | src/controllers/campaignController.js:236-244 | the totals of two groups of campaigns add up |
| Campaigns.TotalsNonNegative | src/controllers/campaignController.js:242-243 | over valid campaigns, budget and spent totals are not negative |
| Campaigns.StatsReply | src/controllers/campaignController.js:250-255 | the zero fallback is exactly the totals of no campaigns, so the reply is always the totals of the matched ones |
| Campaigns.CampaignStats | src/controllers/campaignController.js:227-256 | the statistics are the totals of the campaigns in scope, and of all campaigns for an admin |
| Campaigns.OwnStatsCountOwned | src/controllers/campaignController.js:229-231 | a non-admin's totalCampaigns is the number of campaigns they own |
| Campaigns.NonAdminStatsAsWrittenAreZero | src/controllers/campaignController.js:233-234 | as written, a non-admin's statistics are always zero |
| Campaigns.StatsFindingExample | src/controllers/campaignController.js:229-255 | the owner of one active campaign gets (1, 1, budget, spent) from the corrected statistics and zeros as written |
| Users.UserListQuery | src/controllers/userController.js:10-24 | the query filters role and the search only when given |
| Users.UserListingSelectsExactly | src/controllers/userController.js:12-24 | a user is selected iff of the given role and matching the search in first name, last name or email |
| Users.UnfilteredListing | src/controllers/userController.js:8-41 | without parameters every user is counted, in pages of ten |
| Users.FindUser | src/controllers/userController.js:53-62 | the user iff it exists, else 404 |
| Users.Whitelist | src/controllers/userController.js:78 | only firstName, lastName and email are taken from the body |
| Users.WhitelistIgnoresOtherKeys | src/controllers/userController.js:78 | other keys of the body have no effect |
| Users.UpdatedUser | src/controllers/userController.js:76-100 | 403 unless self or admin, then 404 for a missing user, and otherwise success; first name, last name and email take the body's values when given and keep theirs otherwise; role and activity never change |
| Users.UpdateRefusalHidesExistence | src/controllers/userController.js:82-87 | the 403 does not depend on which users exist |
| Users.NoEscalationThroughUpdate | src/controllers/userController.js:89-93 | a body naming only role and isActive leaves the user unchanged |
| Users.UserStore.Update | src/controllers/userController.js:76-110 | stores the updated user on success and changes nothing on a refusal |
| Users.UserStore.Delete | src/controllers/userController.js:115-124 | 404 for a missing user; otherwise exactly that user is removed |
| Analytics.DeviceBreakdown | src/controllers/analyticsController.js:322-349 | a grouping of the events by device type, unset included |
| Analytics.LocationBreakdown | src/controllers/analyticsController.js:351-380 | at most ten country rows, a ranking by impressions of the country grouping |
| Analytics.CampaignAnalytics | src/controllers/analyticsController.js:7-63 | 404/403 exactly as the campaign check, before anything is aggregated; otherwise the summary, time series, device grouping and location ranking of the campaign's events in the window |
| Analytics.RawCampaignEventsEmpty | src/controllers/analyticsController.js:322-379 | as written, the breakdown `$match` selects no event, so both breakdowns and the time series are empty |
| Analytics.RawCampaignEventsExample | src/controllers/analyticsController.js:30-46 | one impression: the summary counts it, the device breakdown as written is empty, and the corrected one is not |
| Analytics.ScopeOf | src/controllers/analyticsController.js:75-78 | admins see every campaign; others see exactly the campaigns they own |
| Analytics.SummaryOf | src/controllers/analyticsController.js:411-414 | the campaign's name and status if it exists, null otherwise |
| Analytics.TopCampaigns | src/controllers/analyticsController.js:382-417 | at most five rows, a descending ranking of the scoped events grouped by campaign; every campaign is in scope, each with its looked-up details |
| Analytics.AttachCampaigns | src/controllers/analyticsController.js:411-414 | each row keeps its counts and gets its campaign's details |
| Analytics.RankedKeysInScope | src/controllers/analyticsController.js:385-394 | every ranked campaign is in the scope that matched the events |
| Analytics.AnalyticsOverview | src/controllers/analyticsController.js:68-141 | the overview is the summary of the events the user may see in the window; the top campaigns are at most five, a descending ranking of the scoped events (no window) grouped by campaign, each in scope with its looked-up details |
| Analytics.NoCampaignsNoAnalytics | src/controllers/analyticsController.js:75-78 | a non-admin owning no campaign gets an all-zero overview and no ranking |
| Analytics.SimulateData | src/controllers/analyticsController.js:163-263 | 404/403 insert nothing; otherwise days defaults to 7, the generated events are appended, and eventsCreated is their number |
| Analytics.InsertSimulated | src/controllers/analyticsController.js:186-250 | the generated run is appended in one insert, and its length is returned |

## Left out

- HTTP plumbing is not modelled: status codes are `Access.Denial` values, and the routers and server start-up are not part of this model.
- Exceptions from Mongo reaching `next(error)` are not modelled. These include the 500 answers to ids that cannot be cast, and partial failures of `insertMany`.
- Query-string coercion is left out: `page`, `limit` and `days` are integers, not the strings JavaScript coerces, and `parseInt` in the pagination reply is not modelled.
- Floating point is left out. Rates use exact rational rounding. Value, budget and spent sums are `real`. `budgetUtilization` divides exactly.
- `Math.random()` is the draw stream `rand`. The generator's float arithmetic, `Math.floor(r * k)` for k = 0.02 + 0.03·r and the like, is computed exactly on the 53-bit draws.
- `$dateToString` is the parameter `dateToString(format, timestamp)`. ISO weeks and time zones are not modelled.
- `date.setDate(date.getDate() - day)` is taken as exactly `day` · 24h before `clock(day)`. Daylight-saving shifts are not modelled.
- The case-insensitive `$regex` search is the parameter `matches(pattern, text)`.
- Token verification (the token utilities module) is the parameter `verify`; an exception there is `None`. The User model is not part of this model: a user is its fields `isActive`, `role` and the three profile fields.
- The User schema's own validators, run by `runValidators` on update, are not part of this model.
- `populate('owner', …)` is left out. In the campaign listing it changes no selection or count. In `getCampaignById` it supplies the owner's name and email, which the model does not return.
- Campaigns.CampaignStore.Get: the owner of a campaign may have been deleted, since deleting a user leaves their campaigns. `populate` then gives a null owner, and the ownership check at src/controllers/campaignController.js:72 throws, so a non-admin gets a 500. The model has no user collection here and answers 403.
- The Creative model and its validation are not part of this model: a creative is the submitted map with `campaign` set.
- The currency's `uppercase` option is not modelled: strings have no case folding here.
- The `targetAudience` fields are not modelled: no rule reads them.
- Fields in an update body that are not modelled campaign fields are ignored.
- Request bodies are typed: each field is absent or carries a value of its schema type. The model cannot represent a JSON `null`. In `updateCampaign` (src/controllers/campaignController.js:139), `null` is assigned and then fails a required validator or clears an optional field. In `updateUser` (src/controllers/userController.js:89-93), it is passed on to the update. A value of the wrong type, which Mongoose rejects with a cast error, is not represented either.
- Campaigns.UpdatedCampaign: revalidates every field on save, where Mongoose may skip validators of unmodified paths.
- `createdAt` sorting is left out: listings take the documents in their sort order.
- Indexes and logging are left out, and so is the process exit, which is the `MissingMongoUri` error result.
- Breakdown.IsRanking: the order among rows with equal impressions is deliberately unconstrained, since the `$sort` has no tie-break.
- Stats.FormatStats, TimeSeries.Pivot: the `$group` output order is taken as arbitrary. The time series assumes the `$sort` by date that the pipeline performs.

## Findings

| source | as written | input that shows it | evidently intended | confidence | as-written member | corrected member |
|---|---|---|---|---|---|---|
| src/controllers/campaignController.js:229-234 | the statistics `$match: {owner: userId}` compares the stored ObjectId with the requester's id string; aggregation stages are not cast | a non-admin who owns one active campaign with budget b and spent s | the totals of the requester's campaigns, (1, 1, b, s) | high, not executed | Campaigns.StatsFindingExample | Campaigns.CampaignStats |
| src/controllers/analyticsController.js:268 | the time-series, device and location `$match: {campaign: campaignId}` (also lines 323 and 352) uses the raw path string; the summary casts it (src/models/AnalyticsEvent.js:65) | a campaign with one impression in the window | the breakdowns and series of the same events the summary counts | high, not executed | Analytics.RawCampaignEventsExample | Analytics.CampaignAnalytics |

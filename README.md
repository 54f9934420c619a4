# Launch aggregation service, modelled in Dafny

This project models the core of a small facade over a public launch-data API.
The core is `TaskService`, which has two request pipelines:

- **getRocketsLaunchedByYear** lists the launches and looks up each launch's
  rocket. It writes the rocket's name into the launch's `rocketType`. If the
  rocket has no name, it writes `"ROCKET_NAME_NA"` instead. It then counts the
  launches by rocket name and by the UTC calendar year of the launch instant.
- **getLaunchesPerSite** lists the launches and looks up each launch's pad and
  rocket. It writes `launchPadName` and `rocketType`, using the sentinels
  `"LAUNCHPAD_NAME_NA"` and `"ROCKET_NAME_NA"` for absent names. It then counts
  the launches by rocket name and by pad name.

Files:

- `wrappers.dfy`: `Option` and `Result`.
- `domain.dfy`: the launch record. `Launch` is a class, because the pipelines
  set its two derived fields in place. `Rocket` and `LaunchPad` are values:
  an id and an optional name each
  (src/main/java/com/assesment/spacex/domain/Rocket.java:16-21 and
  src/main/java/com/assesment/spacex/domain/LaunchPad.java:16-21).
- `spacex_client.dfy`: the launch-data client. The remote side is given as
  data: a listing, and for rockets and for pads a map from id to what a lookup
  returns. An id that is missing from the map is not found. Every call is
  appended to a log, so the lookups a pipeline makes can be stated.
- `calendar.dfy`: the UTC year of an instant, in the proleptic Gregorian
  calendar of ISO-8601. An instant is a whole number of seconds since
  1970-01-01T00:00:00Z.
- `grouping.dfy`: the two-level `groupingBy(k1, groupingBy(k2, counting()))`
  reduction. It is a fold over the key pairs in encounter order.
- `task_service.dfy`: the two pipelines as methods of `TaskService`. Each one
  enriches the launch objects in a loop and then groups the enriched keys.
  Each one is proved equal to a function of the client's data (`LaunchesByYear`,
  `LaunchesBySite`), and the lemmas state what those functions promise.
- `scenarios.dfy`: the service's unit tests, with the remote side scripted
  as data.

Both pipelines are all or nothing. A failed listing, or any failed lookup,
fails the whole request, and no partial map is produced. Reactor's `flatMap`
runs the per-launch lookups concurrently. The model makes them one after
another, in listing order, and reports the first failure in that order. The
`ArrivalOrder` lemmas show that on success the result does not depend on the
order in which enriched launches arrive. In the by-site view the source
creates both lookups of a launch before `zipWith` combines them. The model
therefore logs both calls for each launch. If both fail, it reports the pad's
failure.

The failure causes (`NotFound`, `RemoteUnavailable`, `DecodeError`) are a
modelling choice. The source has no error types of its own: a failed HTTP
call surfaces as an error signal of the reactive stream. A not-found id
counts as a failure because `WebClient.retrieve()` turns a 4xx response into
an error.

Because of the sentinel rule, a rocket whose name is literally
`"ROCKET_NAME_NA"` is counted in the same bucket as rockets without a name
(`RocketTypeOf`). The same holds for pads.

## Model

| member | source | states |
|---|---|---|
| Domain.Launch.constructor | src/main/java/com/assesment/spacex/domain/Launch.java:19-28 | a freshly decoded launch carries its ids and date, and neither derived field is set yet |
| SpacexClient.Client.constructor | src/main/java/com/assesment/spacex/service/SpacexClientService.java:26-64 | a client scripted with a listing and two lookup tables has made no calls yet |
| SpacexClient.Client.GetAllLaunches | src/main/java/com/assesment/spacex/service/SpacexClientService.java:26-30 | returns the scripted listing and logs one listing call |
| SpacexClient.Client.GetRocketById | src/main/java/com/assesment/spacex/service/SpacexClientService.java:42-47 | returns the lookup result for the rocket id and logs exactly that rocket lookup |
| SpacexClient.Client.GetLaunchPadById | src/main/java/com/assesment/spacex/service/SpacexClientService.java:59-64 | returns the lookup result for the pad id and logs exactly that pad lookup |
| Calendar.YearLength | src/main/java/com/assesment/spacex/service/TaskService.java:47 | the day count gives each year 366 days when it is a Gregorian leap year and 365 days otherwise |
| Calendar.DayCountAnchors | src/main/java/com/assesment/spacex/service/TaskService.java:47 | the day count starts at 0000-01-01 and puts 1970-01-01 at day 719528 |
| Calendar.DaysBeforeYearBounds | src/main/java/com/assesment/spacex/service/TaskService.java:47 | the days before year y stay within a fixed band around y * 146097 / 400, the mean Gregorian year |
| Calendar.EpochDay | src/main/java/com/assesment/spacex/service/TaskService.java:47 | the day number of an instant is the day whose 86400 seconds contain it, so instants before 1970 round down |
| Calendar.YearOfEpochDay | src/main/java/com/assesment/spacex/service/TaskService.java:47 | the computed year is one whose first day is at or before the given day and whose successor's first day is after it |
| Calendar.YearOfEpochDayUnique | src/main/java/com/assesment/spacex/service/TaskService.java:47 | any year that brackets the day in this way is the computed year, so each day lies in exactly one year |
| Calendar.UtcYear | src/main/java/com/assesment/spacex/service/TaskService.java:47 | the UTC year of an instant is the year whose first and last seconds bracket it |
| Calendar.UtcYearExamples | src/test/java/com/assesment/spacex/service/TaskServiceTest.java:109-119 | 2023-01-21T05:47:26Z is in 2023, 2022-01-21T05:47:26Z is in 2022, both ends of 1970 are in 1970, and the second before the epoch is in 1969 |
| Grouping.Increment | src/main/java/com/assesment/spacex/service/TaskService.java:43-50 | one element with keys (a, b) is added: the inner map for a is taken, or an empty one when a is new, and the count for b in it becomes one more than before, or 1 when b is new |
| Grouping.GroupCount | src/main/java/com/assesment/spacex/service/TaskService.java:43-50 | the two-level count map of a sequence of key pairs: the empty sequence gives the empty map, and each later element is one Increment of the map of the elements before it |
| Grouping.GroupCountExact | src/main/java/com/assesment/spacex/service/TaskService.java:43-50 | a pair of keys has an entry exactly when some element carries it, and the entry equals the number of such elements, so no count is zero |
| Grouping.GroupCountOuterKeys | src/main/java/com/assesment/spacex/service/TaskService.java:44-46 | an outer key is present exactly when some element carries it, and its inner map is never empty |
| Grouping.GroupCountPermutation | src/main/java/com/assesment/spacex/service/TaskService.java:43-50 | any two orderings of the same key pairs give the same map |
| Grouping.GroupCountTotal | src/main/java/com/assesment/spacex/service/TaskService.java:43-50 | the leaf counts add up to the number of elements, so each element is counted once |
| Service.RocketTypeOf | src/main/java/com/assesment/spacex/service/TaskService.java:37-39 | the name a rocket lookup contributes: the rocket's name, or ROCKET_NAME_NA when it is absent |
| Service.LaunchPadNameOf | src/main/java/com/assesment/spacex/service/TaskService.java:73-75 | the name a pad lookup contributes: the pad's name, or LAUNCHPAD_NAME_NA when it is absent |
| Service.YearKeys | src/main/java/com/assesment/spacex/service/TaskService.java:33-41 | the by-year grouping keys of the listed launches in listing order (the rocket's sentinel-ruled name and the UTC year of the launch), or the cause of the first launch whose rocket lookup fails |
| Service.LaunchesByYear | src/main/java/com/assesment/spacex/service/TaskService.java:32-51 | what the by-year view delivers: the listing's failure, or the first failed rocket lookup's cause, or else the two-level count of the by-year keys |
| Service.SiteKeys | src/main/java/com/assesment/spacex/service/TaskService.java:68-81 | the by-site grouping keys of the listed launches in listing order (the rocket's and the pad's sentinel-ruled names), or the first failure of the first launch that does not resolve, the pad's ahead of the rocket's |
| Service.LaunchesBySite | src/main/java/com/assesment/spacex/service/TaskService.java:67-91 | what the by-site view delivers: the listing's failure, or the first unresolved launch's failure, or else the two-level count of the by-site keys |
| Service.EnrichedYearKeysMatch | src/main/java/com/assesment/spacex/service/TaskService.java:43-47 | on launches enriched by the by-year rule, grouping keys read from the objects (rocketType and year) are the keys the specification function computes from the data |
| Service.EnrichedSiteKeysMatch | src/main/java/com/assesment/spacex/service/TaskService.java:83-87 | on launches enriched by the by-site rule, grouping keys read from the objects (rocketType and launchPadName) are the keys the specification function computes |
| Service.TaskService.constructor | src/main/java/com/assesment/spacex/service/TaskService.java:15-18 | the service holds the client it was given |
| Service.TaskService.EnrichRocketType | src/main/java/com/assesment/spacex/service/TaskService.java:34-41 | makes one rocket lookup; on success sets rocketType to the rocket's name, or to ROCKET_NAME_NA when the name is absent; on failure reports that lookup's cause and leaves the launch as it was; never touches launchPadName |
| Service.TaskService.EnrichSite | src/main/java/com/assesment/spacex/service/TaskService.java:69-81 | makes a pad lookup and then a rocket lookup; when both succeed sets launchPadName and rocketType by the two sentinel rules; otherwise reports the pad's failure ahead of the rocket's and leaves the launch as it was |
| Service.TaskService.GetRocketsLaunchedByYear | src/main/java/com/assesment/spacex/service/TaskService.java:32-51 | the result equals the by-year specification of the client's data; on success every listed launch has a resolved rocket and the sentinel-ruled rocketType, and the calls are the listing followed by one rocket lookup per launch in order; on every path the earlier call log is kept, no pad is ever looked up, and launchPadName is never changed |
| Service.TaskService.GetLaunchesPerSite | src/main/java/com/assesment/spacex/service/TaskService.java:67-91 | the result equals the by-site specification of the client's data; on success every launch carries both sentinel-ruled names, and the calls are the listing followed by a pad and a rocket lookup per launch in order; on every path the earlier call log is kept |
| Service.YearKeysFirstFailure | src/main/java/com/assesment/spacex/service/TaskService.java:33-41 | a failed rocket lookup after a run of successful ones makes the whole key computation fail with that lookup's cause |
| Service.YearKeysSucceed | src/main/java/com/assesment/spacex/service/TaskService.java:33-41 | the keys are produced exactly when every rocket lookup succeeds, and then there is one key pair per launch, each launch's own, in listing order |
| Service.ByYearSucceedsIff | src/main/java/com/assesment/spacex/service/TaskService.java:33-43 | the by-year result is produced exactly when the listing and every rocket lookup succeed |
| Service.ByYearFailureCause | src/main/java/com/assesment/spacex/service/TaskService.java:33-43 | a failed by-year request reports the listing's failure, or else the cause of the first failed rocket lookup in listing order |
| Service.FirstFailing | src/main/java/com/assesment/spacex/service/TaskService.java:33-41 | when some element of a sequence fails a test, there is a first failing element and every element before it passes; both views apply this to the launches whose lookups fail |
| Service.ByYearExact | src/main/java/com/assesment/spacex/service/TaskService.java:43-50 | a (rocket name, year) entry exists exactly when some launch has that name and year, and it equals the number of such launches |
| Service.ByYearOuterKeys | src/main/java/com/assesment/spacex/service/TaskService.java:45 | the outer keys are exactly the enriched rocket names of the launches, not rocket ids |
| Service.ByYearTotal | src/main/java/com/assesment/spacex/service/TaskService.java:33-50 | when every lookup succeeds, the leaf counts add up to the number of listed launches |
| Service.ByYearArrivalOrder | src/main/java/com/assesment/spacex/service/TaskService.java:34-41 | launches arriving from the concurrent lookups in any order give the same by-year result |
| Service.RocketLookupsShape | src/main/java/com/assesment/spacex/service/TaskService.java:34-35 | the by-year lookup log has one rocket lookup per launch, the i-th for the i-th launch's rocket id |
| Service.SiteKeysFirstFailure | src/main/java/com/assesment/spacex/service/TaskService.java:68-81 | a failed pad or rocket lookup after a run of successful launches makes the by-site key computation fail with that launch's first failure |
| Service.SiteKeysSucceed | src/main/java/com/assesment/spacex/service/TaskService.java:68-81 | the by-site keys are produced exactly when every pad and rocket lookup succeeds, and then there is one key pair per launch in listing order |
| Service.BySiteSucceedsIff | src/main/java/com/assesment/spacex/service/TaskService.java:68-83 | the by-site result is produced exactly when the listing and every pad and rocket lookup succeed |
| Service.BySiteFailureCause | src/main/java/com/assesment/spacex/service/TaskService.java:68-83 | a failed by-site request reports the listing's failure, or else the first failure of the first unresolved launch, with the pad's failure ahead of the rocket's |
| Service.BySiteExact | src/main/java/com/assesment/spacex/service/TaskService.java:83-90 | a (rocket name, pad name) entry exists exactly when some launch has both names, and it equals the number of such launches |
| Service.BySiteOuterKeys | src/main/java/com/assesment/spacex/service/TaskService.java:85 | the outer keys of the by-site view are exactly the enriched rocket names of the launches |
| Service.BySiteTotal | src/main/java/com/assesment/spacex/service/TaskService.java:68-90 | when every lookup succeeds, the by-site leaf counts add up to the number of listed launches |
| Service.BySiteArrivalOrder | src/main/java/com/assesment/spacex/service/TaskService.java:69-81 | launches arriving in any order give the same by-site result |
| Service.SiteLookupsShape | src/main/java/com/assesment/spacex/service/TaskService.java:70-71 | the by-site lookup log has two calls per launch, first the pad lookup and then the rocket lookup of that launch |
| Scenarios.LaunchedByYear | src/test/java/com/assesment/spacex/service/TaskServiceTest.java:32-64 | one launch of rocket "falcon" at instant now gives falcon to {UTC year of now: 1}, with one listing call and one rocket lookup |
| Scenarios.LaunchedByYearNullRocketName | src/test/java/com/assesment/spacex/service/TaskServiceTest.java:66-97 | a rocket without a name is counted under ROCKET_NAME_NA, with one listing call and one rocket lookup |
| Scenarios.LaunchedByYearMultipleResults | src/test/java/com/assesment/spacex/service/TaskServiceTest.java:100-152 | Falcon maps to {UTC year of now: 1} and Apollo to {2023: 1, 2022: 1}; the calls are the listing and three rocket lookups and nothing else |
| Scenarios.LaunchesPerSite | src/test/java/com/assesment/spacex/service/TaskServiceTest.java:154-192 | one launch gives falcon to {Site 1: 1}, with one pad and one rocket lookup |
| Scenarios.LaunchesPerSiteNullNames | src/test/java/com/assesment/spacex/service/TaskServiceTest.java:194-230 | a rocket and a pad without names are counted under ROCKET_NAME_NA and LAUNCHPAD_NAME_NA, with one listing call, one pad lookup and one rocket lookup |
| Scenarios.LaunchesPerSiteMultipleResult | src/test/java/com/assesment/spacex/service/TaskServiceTest.java:232-297 | Falcon maps to {Site 1: 1} and Apollo to {Site 2: 2}; the calls are the listing and, per launch, a pad lookup and a rocket lookup, and nothing else |
| Scenarios.LaunchedByYearLookupFails | src/main/java/com/assesment/spacex/service/TaskService.java:33-43 | when the second of two rocket lookups fails, the whole by-year request fails with that cause |
| Scenarios.LaunchesPerSiteUnknownPad | src/main/java/com/assesment/spacex/service/TaskService.java:68-83 | a pad id unknown to the remote side fails the whole by-site request as not found |
| Scenarios.ThreeLaunchesByYear | src/test/java/com/assesment/spacex/service/TaskServiceTest.java:103-141 | the by-year specification of the three-launch test data is Falcon to {year of the first launch: 1} and Apollo to {2023: 1, 2022: 1} |
| Scenarios.OneLaunchByYear | src/test/java/com/assesment/spacex/service/TaskServiceTest.java:71-87 | one launch of a rocket gives its sentinel-ruled name to {year of the launch: 1} |
| Scenarios.ThreeLaunchesBySite | src/test/java/com/assesment/spacex/service/TaskServiceTest.java:237-285 | the by-site specification of the three-launch test data is Falcon to {Site 1: 1} and Apollo to {Site 2: 2} |
| Scenarios.OneLaunchBySite | src/test/java/com/assesment/spacex/service/TaskServiceTest.java:199-220 | one launch gives its rocket's sentinel-ruled name to {its pad's sentinel-ruled name: 1} |

## Left out

- HTTP transport, base-URL configuration, JSON decoding, and the router and handler that expose the two views. The client is scripted data: `SpacexClientService.java` is modelled by its three calls only, and `SpacexWebClientConfig.java`, `TaskRouter.java` and `TaskHandler.java` are not part of this model.
- Reactor scheduling: `flatMap` interleaving, `zipWith` subscription and fail-fast cancellation. Lookups run one after another in listing order.
- Service.TaskService.GetRocketsLaunchedByYear: states the exact lookup log and the enriched fields only on success; on failure it states only that the earlier log is kept and that no pad lookup is made. After a failure, the source may already have started lookups for later launches, and may have enriched some of them, before cancellation. The model stops at the first failing launch.
- Service.TaskService.GetLaunchesPerSite: the same, and on failure only that the earlier log is kept. When several lookups fail concurrently, the source does not determine which failure surfaces. The model reports the first in listing order, with the pad before the rocket.
- Fresh launch objects per request. The scripted client hands out the same `Launch` objects on every listing call, while the source decodes new objects, with both derived fields empty, for each request. In the model, launches listed for a second request may therefore already carry names from an earlier request. No result depends on this, because every success overwrites the derived fields the grouping reads.
- Lookups that complete without a value (an empty response body). Reactor's `map` would then silently drop that launch from the counts. The lookup result has no "empty" case here.
- Sub-second precision of instants and the finite `Instant` range. Instants are whole, unbounded seconds, and a fraction of a second never changes the calendar year.
- `Long` counts are unbounded naturals. No realistic listing comes near overflow.
- Launches with a missing id or date. In the source a null date makes the year grouping throw. In the model every launch has ids and a date.
- The tests' expectation of the year 2024 for `Instant.now()`. The scenarios state that year as the UTC year of a `now` parameter.
- Jackson property mappings and Lombok builders and accessors in the domain classes.

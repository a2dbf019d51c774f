# Verified model of argos-edge

argos-edge is a panel in front of a Caddy server. This project models the parts of its backend
that carry the most logic and proves what they promise, over all inputs, runs and interleavings.
`dafny verify dfyconfig.toml` checks everything.

- **Config compiler** (`Panel`, `Caddy`, `Matchers`, `RouteCompiler`, `CompilerCorrectness`): hosts, rules, target
  groups and security settings become a route tree. `Caddy` evaluates such a tree (ordered routes, one AND'd match
  block, `not`, terminal, subroute, handler chain); `CompilerCorrectness` says what the panel means without routes and
  proves that the tree answers every request that way.
- **Configuration export and import** (`ConfigModel`, `ConfigTables`, `ConfigStore`, `ConfigLaws`, `ConfigRoundTrip`,
  `ConfigFixpoint`, `ConfigLosses`, `ConfigNamed`, `ExportOrder`, `StrayFilters`, with `Upserts` and `Ordering`):
  `ConfigStore.Store` works on tables with row ids; each of its methods is proved against `ConfigModel`, which states
  the same on names and domains only. The laws are about that view; the constraints they ask for (`Sane`: those of the
  schema, sorted child lists) hold of a new panel and after any import.
- **Dashboard cache** (`DashboardCache`, `CacheProtocol`, `CacheAnswers`, `CacheServing`, `CacheWarmth`): the locked
  sections as methods, and a system in which callers, refreshes, loads, the rounds of the refresher and the clock
  interleave one section at a time.
- **Stitched traffic** (`Rollup`, `Stitch`, `OverviewFigures`, `RollupReads`): hourly rollup plus row edges against a
  direct pass over the rows.
- **Recovery codes** (`Recovery`), **restore and backup reconcile** (`Restore`, `Backups`), **AppSec bursts and
  aggregates** (`Alerts`, `Tallies`, `Bursts`, `Aggregates`, `AlertReads`), **manual certificates** (`ManualCerts`,
  `ImportedCerts`), **certificate probes** (`CertProbe`), **outage detectors** (`Outages`), **demo sampler**
  (`Weighted`).

A class stands for an object or a table set that the source updates in place; its methods are the source's loops and
locked sections, proved against functions, and the lemmas are about those functions. Time is a parameter or a field
that an `Advance` step moves. The next step of a protocol is any enabled one. Ciphertexts are opaque: a serial number
per encryption (`Recovery`), a token that opens under the key it was sealed with (`ManualCerts`), or a text with the
encryption prefix (`ConfigModel`).

The direct reading of the compiler shares with it only letter case and trimming (`Basics` says what they do) and how
a host pattern meets a name. The modules `ConfigNamed`, `ExportOrder`, `CacheServing`, `RollupReads` and
`AlertReads` do the same for the functions that specify the methods: they say what these compute with every field,
default, bound and text named.

Where the code and its documentation disagree the model follows the code:

- A window that ends exactly on the end of its closed hours has no live edge, so the stitched query misses a row at
  that very moment; the direct query counts it (`WindowEndingOnTheHourLosesARow`). Statuses of 600 and more count as 5xx
  in the direct query only (`StatusBeyondClassesIsLost`). `SeriesAgreeIff` and `OverviewIsExactIff` say when both agree.
- Merging a bundle disables a channel whose stored secret is present but no ciphertext, and drops filters on deleted
  hosts; a rule that filtered only on deleted hosts then matches all hosts. `MergingOwnExportIsNoOpIff` and
  `FilterComesBackIff` give the conditions, `ConfigLosses` the inputs.
- The ids a stored notification rule filters on are not checked. If a merge gives such an id to a new host, a rule that
  matched nothing comes alive for it (`StrayLaw`, `StrayFilterComesAlive`).
- An import writes `tls_mode` without regard to certificate rows, and a replacing one deletes these rows with the hosts
  (`ImportKeepsRowsIff`, `NewManualHostHasNoRow`).
- A cache miss whose reload fails returns any old value, even one older than MaxStale (`MissIsOldIff`,
  `MissOlderThanMaxStale`).
- A refresh reports the outcome of the last load of its key to end, which need not be the load it waited for
  (`RefreshReportsLastEnd`, `RefreshToldOfAnotherLoad`).
- The alert chart reads the clock again after the alerts were filtered; if a bucket ends in between, an alert can count
  in the totals without a bar (`BarsConserveIff`, `AlertWithoutBar`).
- The burst report's count is always the threshold, and a burst that is still on record hides a later one of the same
  scan, for good if the next scan comes too late (`HiddenBurstReportedIff`, `LaterBurstWaits`).
- The probe cache cannot tell a request for no domains from one for a single empty name.

## Model

| member | source | states |
|---|---|---|
| CompilerCorrectness.CompilationPreservesMeaning | backend/internal/caddycfg/caddycfg.go:113-327 | For every panel and every request the generated config answers with `o` exactly when `o` is what the panel means for it: first served host by domain, first gate in order that stops, LAN gate, first rule that takes the request and can be carried out, else the default group |
| CompilerCorrectness.MeaningIsUnique | backend/internal/caddycfg/caddycfg.go:113-327 | The direct reading gives one outcome per request |
| CompilerCorrectness.OutcomeIgnoresOtherHosts | backend/internal/caddycfg/caddycfg.go:113-327 | A domain that no other served host's pattern takes is answered as by a panel holding only this host: neither other hosts nor host order matter |
| CompilerCorrectness.DistinctDomainsAreIndependent | backend/internal/caddycfg/caddycfg.go:113-327 | With distinct domains without wildcards that holds for every domain served |
| CompilerCorrectness.GuardsAnswer | backend/internal/caddycfg/caddycfg.go:181-220 | A chain of pre-handlers answers with the first that stops the request, else lets it through unchanged |
| CompilerCorrectness.GatesInOrder | backend/internal/caddycfg/caddycfg.go:181-220 | The chain holds exactly the protections that apply, in the order crowdsec, appsec, rate limit, WAF, forward auth |
| CompilerCorrectness.RuleRoutesMeaning | backend/internal/caddycfg/caddycfg.go:541-563 | The routes of a rule list answer with the effect of the first rule that takes the request; rules that cannot be realised fall through |
| CompilerCorrectness.ActionMeaning | backend/internal/caddycfg/caddycfg.go:671-762 | An action translates exactly when it can be carried out, and its handlers then have its effect, which is read off the action and the groups alone |
| CompilerCorrectness.RewriteRuleAnswers | backend/internal/caddycfg/caddycfg.go:671-787 | The config answers a request that a rewrite rule decides by proxying to the host's own group with the text before the first mark the given path, or the request path placeholder if only a query is given, the text behind it the query, no mark without a query, and the given prefix |
| CompilerCorrectness.InnerMeaning | backend/internal/caddycfg/caddycfg.go:150-179 | A host's subroute always answers, with what the host's LAN flag, rules and default mean |
| CompilerCorrectness.LanGateMeaning | backend/internal/caddycfg/caddycfg.go:385-411 | The LAN gate lets the private ranges through and refuses every other client with the 403 |
| CompilerCorrectness.LanOnlyShieldsOutsiders | backend/internal/caddycfg/caddycfg.go:166-179 | A LAN-only host gives a client outside the listed ranges its refusal or a gate's answer, never a rule's or an upstream's |
| CompilerCorrectness.LanOnlyIgnoresInsiders | backend/internal/caddycfg/caddycfg.go:166-179 | For clients inside the listed ranges the LAN-only flag changes no answer |
| CompilerCorrectness.ProxiedToEnabledTargets | backend/internal/caddycfg/caddycfg.go:790-870 | A request for a served host is always answered, and what is proxied goes to the enabled targets, at least one, of the host's group or of one a rule of the host forwards to, balanced, over TLS, verified and with the Host header as that group says |
| RouteCompiler.HostsToCaddyConfig | backend/internal/caddycfg/caddycfg.go:113-327 | The loop over the hosts builds the specified config: routes, ACME subjects, certificate files |
| RouteCompiler.BuildInnerRoutes | backend/internal/caddycfg/caddycfg.go:150-179 | The inner loop builds LAN gate, one route per realisable rule, default route |
| RouteCompiler.BuildHostHandlers | backend/internal/caddycfg/caddycfg.go:181-220 | The handler chain is the host's gates followed by its subroute |
| RouteCompiler.BuildUpstreams | backend/internal/caddycfg/caddycfg.go:846-855 | The loop keeps the dials of the enabled targets in order |
| RouteCompiler.DialsAreEnabledTargets | backend/internal/caddycfg/caddycfg.go:846-855 | A dial is emitted exactly for an enabled target |
| Matchers.TranslateMatchers | backend/internal/caddycfg/caddycfg.go:570-664 | The accumulator loop equals the fold over the matchers and fails exactly on an undecodable one |
| Matchers.TranslationMeaning | backend/internal/caddycfg/caddycfg.go:570-664 | The block means the declarative reading: one kind's matchers are alternatives, per header name and query name, kinds are all required, the last regex per header and the last host_header win, each negated range set is excluded |
| Matchers.FoldDescribes | backend/internal/caddycfg/caddycfg.go:570-664 | What every field of the accumulated block holds after any list of matchers |
| Matchers.HeaderFieldMeaning | backend/internal/caddycfg/caddycfg.go:599-614 | The exact-header map accepts a request exactly when every listed name has one of its values |
| Matchers.QueryFieldMeaning | backend/internal/caddycfg/caddycfg.go:615-623 | The query map accepts a request exactly when every listed key has one of its values |
| Matchers.RemoteFieldMeaning | backend/internal/caddycfg/caddycfg.go:624-637 | Positive ranges are united, each negated set is excluded on its own |
| ConfigStore.Store.Apply | backend/internal/configio/import.go:136-363 | On the id-keyed tables an import succeeds exactly when the import of the natural-key view does, keeps the constraints, and otherwise rolls everything back; it leaves that view behind, exactly but for a kept notification rule that filters on an id the import gives out to a host |
| ConfigStore.StrayLaw | backend/internal/configio/import.go:299-341 | The view after an import is the imported one exactly when it replaces or no kept rule filters on one of the next host ids, as many as the bundle has new domains |
| StrayFilters.RulesStayIff | backend/internal/configio/import.go:309-325 | A stored rule is seen as before exactly when its filter names no id given out |
| StrayFilters.MergedSameIff | backend/internal/configio/import.go:299-341 | A merge makes the same rules of both readings exactly when every affected rule is replaced by the bundle |
| ConfigLosses.StrayFilterComesAlive | backend/internal/api/notifications.go:677-701 | A concrete database with a filter on an unused host id, which the API does not check: merging one new host makes the rule match it |
| ConfigStore.Store.UpsertTargetGroup | backend/internal/configio/import.go:367-435 | Defaults, lookup by name, update in place or insert; fails on a constraint |
| ConfigStore.Store.UpsertHost | backend/internal/configio/import.go:437-468 | Lookup by domain, update of the bundle's columns in place or insert |
| ConfigStore.Store.InsertRule | backend/internal/configio/import.go:206-225 | Deletes a host's rules on first sight when merging, inserts, fails on a second rule of a priority or an unknown host |
| ConfigStore.Store.InsertSecurity | backend/internal/configio/import.go:227-263 | Upserts the security row, clears and refills exclusions and custom rules |
| ConfigStore.Store.UpsertChannel | backend/internal/configio/import.go:522-575 | A redacted secret keeps the ciphertext the channel had before the import, else is emptied and the channel disabled |
| ConfigStore.Store.InsertNotify | backend/internal/configio/import.go:299-341 | Skips rules of unknown channels, drops unknown filter domains, replaces same-named rules when merging |
| ConfigStore.Store.ImportSettings | backend/internal/configio/import.go:343-357 | Writes exactly the whitelisted settings |
| ConfigStore.Store.Export | backend/internal/configio/export.go:21-225 | The bundle is a function of the natural-key view alone |
| ConfigStore.ImportedInSteps | backend/internal/configio/import.go:136-363 | The successful steps of an import compose to the import of the view |
| Upserts.UpsertLoop | backend/internal/configio/import.go:168-204 | A loop of upserts fails only on a bad entry or, after a wipe, a repeated key, and leaves each row as its last entry makes it of the row before the loop |
| Upserts.FillLoop | backend/internal/configio/import.go:206-263 | A clear-and-refill loop succeeds exactly when every entry names a known row and every part can be filled from empty, and then each row met has just that part |
| ConfigLaws.HostSide | backend/internal/configio/import.go:179-263 | When hosts, rules and security import, and what each host's row becomes |
| ConfigLaws.MergingTwiceIsMergingOnce | backend/internal/configio/import.go:136-363 | Any bundle that merges merges again, and the second time changes nothing |
| ConfigRoundTrip.OwnExportComesBack | backend/internal/configio/import.go:136-363 | Importing one's own export succeeds in both modes, and what every group, host, channel, rule and setting becomes |
| ConfigRoundTrip.MergingOwnExportIsNoOpIff | backend/internal/configio/export.go:21-225 | Merging one's own export back is a no-op up to row ids exactly when every stored secret is a ciphertext (or empty in a channel that is off), no group expects an empty status and no rule filters on a host that is gone |
| ConfigRoundTrip.ReplacingByOwnExport | backend/internal/configio/import.go:147-341 | Replacing by one's own export gives the same names, references, rules, security and settings; channels with a secret come back without it and disabled |
| ConfigRoundTrip.ReplaceRoundTrip | backend/internal/configio/export.go:28-191 | Exporting the replaced configuration gives the first bundle, but for disabled channels and the order of notification rules, exactly when no group expected an empty status |
| ConfigRoundTrip.RedactHidesSecrets | backend/internal/configio/export.go:253-268 | Redaction hides whether a secret was stripped |
| ConfigNamed.ExportHidesSecrets | backend/internal/configio/export.go:253-268 | Every exported channel has the placeholder for headers of a webhook, smtp_password of an email and bot_token of a telegram channel whenever it is there, and every other entry of its config as it is |
| ConfigNamed.ImportedChannel | backend/internal/configio/import.go:522-575 | By the names of the fields: a redacted secret ends as the ciphertext the channel had when merging, else empty in a disabled channel; everything else is as in the last entry of the name |
| ConfigNamed.NoPlaceholderStays | backend/internal/configio/import.go:522-575 | A channel so read never holds the placeholder in its secret field |
| ConfigNamed.ImportedGroup | backend/internal/configio/import.go:367-435 | Each group after an import: its last entry with every default spelled out, else what it was |
| ConfigNamed.SettingsNamed | backend/internal/configio/types.go:162-174 | The eight portable settings by name: an import writes and an export holds exactly those |
| ConfigNamed.ImportedHost | backend/internal/configio/import.go:179-263 | Each host after an import: columns, rules by priority and security of its entries, with the defaults of a new host spelled out |
| ConfigNamed.ImportSucceedsIff | backend/internal/configio/import.go:136-363 | An import succeeds exactly when every entry meets its named bounds, references lead to rows, priorities and exclusions do not repeat and, replacing, no name does |
| ConfigNamed.ImportedNotify | backend/internal/configio/import.go:299-341 | Each notification rule after an import is an entry of the bundle for a known channel with its known domains, or a rule that was there and was not replaced |
| ConfigNamed.ExportedSecurityIs | backend/internal/db/security.go:28-38 | Every host leaves with its security settings, one without a row with the defaults, spelled out |
| ExportOrder.ExportIsSorted | backend/internal/configio/export.go:205-222 | Every list of a bundle is in ascending order of its names, rules by host and priority, and notification rules of one name the youngest first |
| ConfigLosses.FilterComesBackIff | backend/internal/notifications/worker.go:209-237 | The rule that comes back matches the same events exactly when the rule did not filter only on deleted hosts |
| ConfigLosses.LostFilterMatchesAll | backend/internal/configio/export.go:169-190 | A rule that filtered only on deleted hosts matched no host's events and after an import of one's own export matches every host's, severities permitting |
| ConfigLosses.DeletedHostFilterIsLost | backend/internal/configio/export.go:169-190 | A concrete configuration with such a rule |
| ConfigLosses.PlainSecretIsLost | backend/internal/configio/import.go:522-575 | A concrete configuration whose channel is disabled by merging its own export: its secret is plain text, or just the prefix of a ciphertext |
| ConfigLosses.EmptyStatusIsLost | backend/internal/configio/import.go:367-435 | A concrete group whose empty expected status comes back as 200 in both modes |
| ConfigFixpoint.ImportsKeepSane | backend/internal/configio/import.go:136-363 | Whatever the bundle and the mode, an import leaves rows that meet their constraints and references that lead to rows, which is what the round trips ask for |
| ConfigFixpoint.EmptyIsSane | backend/internal/configio/import.go:136-363 | So does the configuration of a new panel |
| ConfigFixpoint.ReplacedComesBack | backend/internal/configio/import.go:147-341 | What any replacing import leaves survives the round trip without a condition, but for channels with a secret |
| ConfigFixpoint.RoundTripReachesFixpoint | backend/internal/configio/export.go:21-225 | After one round trip the next one exports the same bundle, up to the order of notification rules |
| ConfigRoundTrip.ImportsKeepReferences | backend/internal/configio/import.go:136-363 | Whatever the bundle and the mode, every host has its group and every notification rule its channel and its filtered hosts after an import |
| DashboardCache.Cache.constructor | backend/internal/dashboard/cache.go:74-81 | TTL, MaxStale of ten TTLs, no entries |
| DashboardCache.Cache.Pin | backend/internal/dashboard/cache.go:85-95 | The key is pinned and has a loader |
| DashboardCache.Cache.GetOrLoadLocked | backend/internal/dashboard/cache.go:100-134 | The locked section: fresh is a hit, up to MaxStale is served stale while a load runs, else wait |
| DashboardCache.Cache.StartLoadLocked | backend/internal/dashboard/cache.go:156-174 | Joins the running load, ends at once without a loader, or starts one |
| DashboardCache.Cache.RefreshLocked | backend/internal/dashboard/cache.go:207-215 | The first locked section of a refresh: nothing without a loader, else join or start a load |
| DashboardCache.Cache.RefreshOutcome | backend/internal/dashboard/cache.go:216-224 | The second one: the outcome the entry holds |
| DashboardCache.Cache.LandLoad | backend/internal/dashboard/cache.go:170-188 | A load's end stores value and time or the failure, and frees the entry |
| DashboardCache.Cache.DueKeys | backend/internal/dashboard/cache.go:279-297 | The keys a round refreshes |
| CacheProtocol.SoundStep | backend/internal/dashboard/cache.go:100-224 | Every step of every interleaving of callers, refreshes, loads and rounds keeps single flight and the truth of the stored pairs |
| CacheProtocol.RunIsGood | backend/internal/dashboard/cache.go:100-224 | So does every run |
| CacheProtocol.RunGrows | backend/internal/dashboard/cache.go:100-224 | Over a run values are only replaced by younger ones and no completion is forgotten |
| CacheProtocol.OneLoadPerKey | backend/internal/dashboard/cache.go:156-174 | At most one load runs for a key, and one runs exactly when the entry says so |
| CacheProtocol.AnswersAreHonest | backend/internal/dashboard/cache.go:100-151 | Every answer is one completed load's pair; a hit was at most TTL old, a stale serve between TTL and MaxStale, a miss whose load ended well no older than its call; an error means the joined load failed |
| CacheProtocol.GenerationsAdvance | backend/internal/dashboard/cache.go:170-188 | A key's generation time never goes back |
| CacheProtocol.ResumeIsFair | backend/internal/dashboard/cache.go:134-151 | A waiter whose load stored a value gets one no older than its call and never an error |
| CacheServing.LookUpIsLooked | backend/internal/dashboard/cache.go:100-134 | What a lookup does by the age of the value alone: up to TTL a hit and nothing else, up to MaxStale that value with a load running if anything can compute it, else wait for one |
| CacheServing.StaleIsReloading | backend/internal/dashboard/cache.go:119-130 | Over every run a value served past its TTL has a load of its key running right after, if the key has a loader |
| CacheServing.FailedIsLastEnd | backend/internal/dashboard/cache.go:156-190 | Over every run an entry is marked failed exactly when the last load of its key to end failed, one without a loader included |
| CacheServing.StaleErrorIff | backend/internal/dashboard/cache.go:119-130 | A stale answer tells of an error exactly when the last load of its key to end failed |
| CacheServing.IntervalIsFourFifths | backend/internal/dashboard/cache.go:201-203 | The refresher's interval is four fifths of TTL, rounded down |
| CacheAnswers.MissIsOldIff | backend/internal/dashboard/cache.go:134-151 | The value of a miss is older than its call exactly when no load of the key landed well between lookup and end, and is then older than MaxStale |
| CacheAnswers.MissOlderThanMaxStale | backend/internal/dashboard/cache.go:134-151 | A concrete run that hands out a value of twice MaxStale as a miss |
| CacheAnswers.RefreshReportsLastEnd | backend/internal/dashboard/cache.go:207-224 | A refresh reports the outcome of the last load of its key to end before it looks, its own load's if no other ended since it began; success means a stored value no older than the refresh |
| CacheAnswers.RefreshToldOfAnotherLoad | backend/internal/dashboard/cache.go:207-224 | A concrete run in which a refresh whose own load went well reports a failure |
| CacheWarmth.PinnedStaysFresh | backend/internal/dashboard/cache.go:192-203 | If loads succeed and rounds meet their deadline, from the end of the first round on a pinned value is never older than TTL, whatever order rounds visit the keys in, whenever Run starts and whatever ticks a late round drops |
| CacheWarmth.PinnedRequestHits | backend/internal/dashboard/cache.go:246-262 | So every request for it is a hit |
| CacheWarmth.TracksStep | backend/internal/dashboard/cache.go:246-262 | Every step keeps the bound of a pinned value's age by the ticks |
| Rollup.SpanIsWellSplit | backend/internal/db/rollup_read.go:88-123 | A span with closed hours is hour-aligned and inside its window |
| RollupReads.ClosedHoursAreHeld | backend/internal/db/rollup_read.go:88-123 | The closed hours of a span are exactly the whole hours of the window that the rollup holds; they start no earlier than its oldest and end no later than its newest one |
| RollupReads.EmptyRollupClosesNothing | backend/internal/db/rollup_read.go:88-123 | An empty rollup leaves the window one edge |
| RollupReads.ReadingIsExact | backend/internal/db/rollup_read.go:159-200 | A rollup exact for all hours from its oldest to its newest, read over the closed hours, is exact for the span |
| Rollup.SplitPartitionsWindow | backend/internal/db/rollup_read.go:64-73 | Closed hours and edges take each moment of the window once, except the very end of a window that ends with its closed hours, which they miss |
| Rollup.RegroupedTotal | backend/internal/db/rollup_read.go:161-200 | Exact rollup rows of different keys add up to the rows they group |
| Rollup.ClosedHoursTotal | backend/internal/db/rollup_read.go:161-200 | A cell of an exact rollup adds up to the rows of the closed hours |
| Rollup.HostFilterStaysExact | backend/internal/db/rollup_read.go:159-200 | An exact rollup is exact for one host's rows, so all results hold under a host filter |
| Rollup.TotalsAddUp | backend/internal/db/rollup_read.go:64-73 | Selections that take each moment equally often have equal totals |
| Stitch.TrafficStitched | backend/internal/dashboard/queries.go:211-383 | The accumulator object fed with rollup rows and edge rows computes the specified fold |
| Stitch.StitchAcc.AddClass | backend/internal/dashboard/queries.go:167-178 | Adds to the class counter of the bucket |
| Stitch.StitchAcc.AddRollup | backend/internal/dashboard/queries.go:180-189 | One rollup row in series, hosts and bytes |
| Stitch.StitchAcc.AddRow | backend/internal/dashboard/queries.go:191-207 | One access row in series, hosts and bytes |
| Stitch.BucketTimes | backend/internal/dashboard/range.go:42-57 | The grid points from the truncated start to the end |
| Stitch.BucketTimesAre | backend/internal/dashboard/range.go:42-57 | The bucket times are exactly the multiples of the granularity from the one at or before the start to the end |
| Stitch.RowsFallInBuckets | backend/internal/dashboard/range.go:42-57 | Every row of the window truncates to one of the bucket times |
| Stitch.NestedTruncation | backend/internal/dashboard/queries.go:276-324 | For granularities of whole hours an hour and all its rows share a bucket |
| Stitch.StitchingRefinesDirectPass | backend/internal/dashboard/queries.go:129-207 | Every bucket, host count and byte sum equals that of the rows in the window, short only of the forgotten moment and of statuses from 600 on |
| Stitch.StitchingIsExact | backend/internal/dashboard/queries.go:514-568 | With statuses below 600 and a window not ending on its closed hours both paths agree outright |
| RollupReads.FilledRollupStitchesExactly | backend/internal/dashboard/queries.go:211-383 | From a filled rollup to the answer: the span it gives, read from it and stitched with the edges, agrees with the direct pass |
| RollupReads.DirectNamed | backend/internal/dashboard/queries.go:514-568 | A bucket of the direct series counts the rows of the window in its stretch of time and status class, 5xx open at the top |
| Stitch.SeriesAgreeIff | backend/internal/dashboard/queries.go:514-568 | The two series agree in every bucket exactly when no row of the window has a status of 600 or more and no counted row sits at the forgotten moment |
| Stitch.HostsAreHosts | backend/internal/dashboard/queries.go:180-207 | Requests of no host are in no host's count |
| Stitch.WindowEndingOnTheHourLosesARow | backend/internal/dashboard/queries.go:211-383 | A concrete window whose last row the stitched path misses |
| Stitch.StatusBeyondClassesIsLost | backend/internal/dashboard/queries.go:191-207 | A concrete row of status 600 that only the direct pass counts |
| OverviewFigures.ReadOverview | backend/internal/dashboard/queries.go:36-68 | The loops over rollup rows and edges compute the specified totals, errors and blocked requests |
| OverviewFigures.SpanSplitsOrNot | backend/internal/db/rollup_read.go:88-123 | A span has closed hours that split its window well, or none and one edge for all of it |
| OverviewFigures.OverviewRefinesDirectPass | backend/internal/dashboard/queries.go:36-68 | The overview's figures are those of the rows in the window, short of the forgotten moment and, for errors, of statuses from 600 on in closed hours |
| OverviewFigures.OverviewIsExactIff | backend/internal/dashboard/queries.go:36-68 | All figures agree with the direct pass exactly when the window has no row of these two kinds |
| RollupReads.FilledRollupOverviewIff | backend/internal/dashboard/queries.go:36-68 | The same condition for the overview read from a filled rollup |
| RollupReads.FiguresNamed | backend/internal/dashboard/queries.go:36-68 | The direct figures count the requests of the window, those with status 500 or more, and those with 403 or 429 |
| Recovery.ConsumeRecoveryCode | backend/internal/totp/recovery.go:102-130 | The constant-length walk takes out the first matching code |
| Recovery.ConsumedTakesOne | backend/internal/totp/recovery.go:102-130 | A match exists exactly for a listed code, and takes out exactly one copy |
| Recovery.UserRow.SaveCAS | backend/internal/totp/repo.go:174-205 | Writes exactly when the stored ciphertext is still the one read |
| Recovery.UserRow.Look | backend/internal/api/totp.go:573-599 | An attempt's read: refuse, or hold the blob and the list without the code |
| Recovery.UserRow.Swap | backend/internal/api/totp.go:600-627 | An attempt's conditional write and what the caller does next |
| Recovery.UserRow.Enroll | backend/internal/totp/repo.go:65-90 | Stores new codes and waits for a confirmation |
| Recovery.UserRow.Disable | backend/internal/totp/repo.go:114-137 | Leaves no codes |
| Recovery.UserRow.Save | backend/internal/totp/repo.go:141-165 | Overwrites unconditionally |
| Recovery.CodesAreConserved | backend/internal/api/totp.go:556-634 | Over every interleaving of requests, regenerations, enrolments and disablings, stored codes and codes accepted since the last generation make up the generated batch |
| Recovery.EachCodeOpensOneSession | backend/internal/api/totp.go:556-634 | Between generations a code opens at most as many sessions as the batch holds copies of it |
| Recovery.OutcomesAreEarned | backend/internal/api/totp.go:556-634 | A session means the request's own write was committed; a 503 means at least three other writes landed during the request |
| Recovery.RunIsGood | backend/internal/api/totp.go:556-634 | Every run keeps the account of codes and of each request's reads and misses |
| Recovery.ReadHoldsIff | backend/internal/api/totp.go:573-599 | A read leaves the request holding the stored list less one copy of the code exactly when 2FA is on and the canonical code, not empty, is listed; else it is refused |
| Recovery.SwapWinsIff | backend/internal/api/totp.go:600-627 | The write goes through exactly when nothing was written since the read; a loser tries again, up to the third attempt |
| Recovery.ListedCodeOpensASession | backend/internal/api/totp.go:573-634 | Over every run a listed code of a user with 2FA on, with no write between read and swap, opens a session |
| Recovery.RequestsAreEarned | backend/internal/api/totp.go:573-627 | Over every run a session read the row with 2FA on and its code listed, and a refusal with one of these missing |
| Recovery.TypedForms | backend/internal/totp/recovery.go:78-91 | A code typed in either case, with a dash, a blank or nothing in the middle and blanks around has the canonical form |
| Restore.CompletedBootRestores | backend/internal/backup/manager.go:450-487 | After any boots that crashed anywhere, the first completed one leaves the live database equal to the payload, no stale WAL or SHM and no flag |
| Restore.DamageIsRepairable | backend/internal/backup/manager.go:450-487 | While the live database is missing or cut short, flag and payload are still there |
| Restore.OneQuietBootSuffices | backend/internal/backup/manager.go:450-487 | From any moment of any such history one undisturbed boot completes the restore |
| Restore.StepKeepsRecoverable | backend/internal/backup/manager.go:450-487 | Every operation and every crash keeps the disk recoverable |
| Restore.IdleBootsTouchNothing | backend/internal/backup/manager.go:450-487 | Without a flag, or with the payload gone, no boot, crashed or not, touches anything but the flag, and none reports a restore |
| Restore.Files.RequestRestore | backend/internal/backup/manager.go:425-441 | Refuses a newer schema and a second pending restore, else sets the flag |
| Restore.Files.ApplyPending | backend/internal/backup/manager.go:450-487 | The undisturbed operations have the effect of the boot of the crash model: nothing without a flag, only the flag without a payload, else the payload is live and all else gone |
| Backups.Manager.Reconcile | backend/internal/backup/reconcile.go:26-109 | Both loops leave exactly the rows with an archive and a recovered row for every other readable archive, and count what they did; a missing directory changes nothing |
| Backups.CountersBalance | backend/internal/backup/reconcile.go:75-109 | The counters account for every row before and after |
| Backups.ReconcileSettles | backend/internal/backup/reconcile.go:26-109 | After a reconcile table and directory agree as far as archives can be read, and a second one changes nothing |
| Backups.ReconciledRow | backend/internal/backup/reconcile.go:26-109 | Each row afterwards: a known archive's as it was, a readable unknown one's recovered, no others |
| Backups.OrphanRowIs | backend/internal/backup/reconcile.go:114-147 | A recovered row has kind, date and note of the embedded metadata as far as they are there, else the file's time and the standard note |
| Backups.ArchivesNamed | backend/internal/backup/reconcile.go:43-57 | Files that count end in .tar.gz, are not hidden and no directories |
| Bursts.Scan | backend/internal/appsec/alerts.go:216-224 | The two pointers stop at the first full window; the window reported is the largest ending there and holds exactly the threshold |
| Bursts.FindBurst | backend/internal/appsec/alerts.go:212-230 | Finds exactly the earliest moment with at least ten alerts in the minute up to it, independent of order |
| Bursts.Detector.DetectBursts | backend/internal/appsec/alerts.go:186-254 | A scan reports an address exactly when the earliest burst of its slice ends after the recorded one |
| Bursts.Detector.Consider | backend/internal/appsec/alerts.go:225-248 | The de-duplication of one address |
| Bursts.Detector.SetNotifier | backend/internal/appsec/alerts.go:76-84 | Wires the notifier and starts from now |
| Bursts.ReportedIff | backend/internal/appsec/alerts.go:186-254 | Over every history of scans a burst is reported exactly when it is its slice's earliest and later than all bursts reported for the address before |
| Bursts.ReportsAdvance | backend/internal/appsec/alerts.go:225-234 | Reported bursts of an address end later and later |
| Bursts.SinceIsLastCall | backend/internal/appsec/alerts.go:186-195 | Over every history the detector is wired from the first wiring on, and each later call starts the next slice at its own time |
| Bursts.SliceHoldsNewBursts | backend/internal/appsec/alerts.go:194-211 | A burst ending since the previous scan lies wholly inside the scanned slice |
| Bursts.NewBurstLeavesARecord | backend/internal/appsec/alerts.go:186-254 | An address with a burst since the previous scan has a burst on record afterwards |
| Bursts.HiddenBurstReportedIff | backend/internal/appsec/alerts.go:186-254 | Over every history a scan reports a burst exactly when it still holds on the alerts since the slice's start, every earlier burst has faded from them, and no later one was reported |
| Bursts.FadedBurstIsNeverReported | backend/internal/appsec/alerts.go:194-211 | A burst that has faded is not reported by later scans of the same alerts |
| Bursts.LaterBurstWaits | backend/internal/appsec/alerts.go:225-248 | Of two bursts at 100 s and 165 s, the first one reported, the second is reported exactly by a scan whose predecessor ran after 160 s and up to 225 s |
| AlertReads.KindsNamed | backend/internal/appsec/alerts.go:63-71 | AppSec alerts, bans and hits by kind and scenario names |
| AlertReads.BurstNamed | backend/internal/appsec/alerts.go:212-230 | A burst is a moment of an alert with ten or more alerts in the sixty seconds up to it |
| AlertReads.SliceNamed | backend/internal/appsec/alerts.go:194-211 | A scan looks at the timed firewall alerts of an address from a minute before the scan before it |
| AlertReads.OutcomeNamed | backend/internal/appsec/metrics.go:244-256 | An alert is blocked if something was done about it or the mode in force when it was made is block |
| AlertReads.CategoriesNamed | backend/internal/appsec/metrics.go:294-310 | Every scenario has exactly one category, by its beginning |
| Aggregates.Summarize | backend/internal/appsec/alerts.go:287-362 | The loop computes the counts of its specification |
| Aggregates.Compute | backend/internal/appsec/metrics.go:93-226 | The loop computes totals, maps and bars of its specification |
| Aggregates.SummaryConserves | backend/internal/appsec/alerts.go:287-362 | Hits and bans, blocked and logged, and the per-rule counts all add up to the alerts counted |
| Aggregates.SummaryBucketsConserve | backend/internal/appsec/alerts.go:350-359 | The buckets add up to the timed alerts, blocked and logged apart |
| AlertReads.SummaryFigures | backend/internal/appsec/alerts.go:287-362 | The four figures count the AppSec alerts of the window that are hits, bans, blocked, and not blocked |
| AlertReads.SummaryMaps | backend/internal/appsec/alerts.go:287-362 | Each entry of the four maps counts the alerts of its source, rule, host or host and URI |
| AlertReads.SummaryBuckets | backend/internal/appsec/alerts.go:350-359 | Each bucket counts the timed alerts of its stretch, blocked and others apart |
| AlertReads.BarNamed | backend/internal/appsec/metrics.go:93-226 | A bar of the page counts the AppSec alerts of its stretch, and the blocked ones |
| Aggregates.AggregatorsAgree | backend/internal/appsec/metrics.go:139-205 | On the alerts of one window both aggregators have the same totals, rules and sources; URI counts are the marginals of the (host, URI) counts and categories those of the rules |
| Aggregates.BarsConserveIff | backend/internal/appsec/metrics.go:118-128 | The bars add up to the timed alerts exactly when all of these lie between the bucket of the window's start and the end of the current one |
| Aggregates.BarsConserve | backend/internal/appsec/metrics.go:118-128 | So for alerts filtered at an earlier reading of the clock, none from the future, if no bucket ended since |
| Aggregates.AlertWithoutBar | backend/internal/appsec/metrics.go:118-128 | A bucket ends between filter and chart: a concrete alert of the totals that has no bar |
| Aggregates.SummaryIgnoresOrder | backend/internal/appsec/alerts.go:287-362 | Permuting the alerts changes nothing in a summary |
| Aggregates.MetricsIgnoreOrder | backend/internal/appsec/metrics.go:93-226 | Nor in the metrics |
| ManualCerts.Registry.CreateHost | backend/internal/api/hosts.go:95-175 | Refuses manual mode and taken domains, else inserts |
| ManualCerts.Registry.UpdateHost | backend/internal/api/hosts.go:190-385 | Refuses to go into manual; going out of it drops certificate row and files |
| ManualCerts.Registry.ToggleHost | backend/internal/api/hosts.go:402-420 | Flips the enabled flag |
| ManualCerts.Registry.DeleteHost | backend/internal/api/hosts.go:384-400 | The certificate row falls with the host, the files stay |
| ManualCerts.Registry.UploadManualCert | backend/internal/api/manual_certs.go:160-188 | Row and mode in one transaction, then both files |
| ManualCerts.Registry.DeleteManualCert | backend/internal/api/manual_certs.go:227-277 | Drops row and files and reverts the mode |
| ManualCerts.Registry.ReconcileManualCerts | backend/internal/certs/reconcile.go:34-82 | Writes the files of exactly the rows that lack one, can be decrypted and written; reports exactly the others that lack one |
| ManualCerts.CreateEffect | backend/internal/api/hosts.go:95-175 | A created host has the next id and all it was given; refused are manual mode and a taken domain, nothing else changes |
| ManualCerts.UpdateEffect | backend/internal/api/hosts.go:190-385 | An updated host has all it was given; only coming out of manual mode drops row and files; when it is refused |
| ManualCerts.DeleteEffect | backend/internal/api/hosts.go:384-400 | Host and row are gone, the files and all other hosts stay |
| ManualCerts.UploadEffect | backend/internal/api/manual_certs.go:160-188 | Manual mode, a row whose key opens under the master key, and both files with their text |
| ManualCerts.DeleteCertEffect | backend/internal/api/manual_certs.go:227-277 | Row and files are gone and the mode is the one asked for; when it is refused |
| ManualCerts.ReconcileEffect | backend/internal/certs/reconcile.go:34-82 | Both files are written for exactly the rows that lack one, open and can be written; no row changes |
| ManualCerts.RunsKeepCertificates | backend/internal/api/hosts.go:304-378 | Over every run of handlers and of boots that lose files: manual mode exactly with a certificate row, and every row has both files with its content |
| ManualCerts.StepKeepsRows | backend/internal/api/hosts.go:304-378 | Every handler keeps mode and certificate row together |
| ManualCerts.LoadedFilesExist | backend/internal/caddycfg/caddycfg.go:241-254 | After a reconcile without errors on any volume every file the config loads is there |
| ManualCerts.NoHostInBoth | backend/internal/caddycfg/caddycfg.go:228-254 | No domain is under an ACME policy and in load_files at once |
| ImportedCerts.ImportShown | backend/internal/configio/import.go:179-204 | The host rows an import writes, updated in place or inserted, show the configuration the import leads to |
| ImportedCerts.ImportKeepsRowsIff | backend/internal/configio/import.go:437-468 | After an import mode and certificate row agree exactly when, merging, the bundle names manual hosts as manual and no other domain, known or new, and replacing, it names no manual host |
| ImportedCerts.NewManualHostHasNoRow | backend/internal/configio/import.go:459-466 | A concrete bundle whose new manual host is left without a certificate row |
| CertProbe.JoinTellsApart | backend/internal/certprobe/cache.go:72-75 | The joined key tells NUL-free lists apart, but for the empty list and the list of one empty name |
| CertProbe.Cache.Check | backend/internal/certprobe/cache.go:77-96 | The first locked section: hit, join or start |
| CertProbe.Cache.Finish | backend/internal/certprobe/cache.go:98-107 | The pass's results, key and time are stored and the flight ends |
| CertProbe.Cache.Invalidate | backend/internal/certprobe/cache.go:60-68 | Forgets time and key |
| CertProbe.OnePassAtATime | backend/internal/certprobe/cache.go:72-109 | At most one pass runs at a time over all callers and domain sets |
| CertProbe.CheckEffect | backend/internal/certprobe/cache.go:77-96 | A check is told the memory exactly when its key fits and it is at most TTL old, else joins the pass in flight, else starts one |
| CertProbe.FinishEffect | backend/internal/certprobe/cache.go:98-107 | A pass leaves a result for each of its domains, its key and its time |
| CertProbe.PassIsShared | backend/internal/certprobe/cache.go:72-109 | Over every run a pass answers later requests for the same domains in any order within TTL, without another pass |
| CertProbe.AnswersFit | backend/internal/certprobe/cache.go:72-109 | Every answer names exactly the domains asked for, unless that was nothing or one empty name, and was at most TTL old |
| CertProbe.EmptyRequestGetsEmptyName | backend/internal/certprobe/cache.go:72-82 | The one collision: a request for nothing is answered with the result of the empty name |
| CertProbe.InvalidateForcesAPass | backend/internal/certprobe/cache.go:60-68 | After an Invalidate with no pass in flight every later answer comes from a pass begun after it |
| Outages.Monitor.Tick | backend/internal/crowdsec/monitor.go:77-171 | One poll: streak and report, or the diff of the decisions |
| Outages.TickEffect | backend/internal/crowdsec/monitor.go:77-171 | What one poll changes and sends, by failed, good and listed beats |
| Outages.OriginsNotAnnounced | backend/internal/crowdsec/monitor.go:127-170 | Origins capi and lists, in either case and with blanks around, are not announced one by one, all others are |
| Outages.DownExactlyAtThirdFailure | backend/internal/crowdsec/monitor.go:79-107 | An outage is reported at the third failure of a stretch of failures and nowhere else |
| Outages.DiffBalances | backend/internal/crowdsec/monitor.go:127-170 | Total is previous total plus added less removed; an update is sent exactly when the ids changed; the new local decisions are announced |
| Outages.ReportsAccountForSize | backend/internal/crowdsec/monitor.go:118-170 | Over a stretch with decisions known the reported changes account for the whole difference in size |
| Outages.HealthCheck.RunProbe | backend/internal/appsec/healthcheck.go:91-121 | One probe's effect on the edge detector |
| Outages.FiresIff | backend/internal/appsec/healthcheck.go:91-121 | A report exactly on a failed probe after a good one, more than a minute after the last report |
| Outages.ReportsAreApart | backend/internal/appsec/healthcheck.go:104-119 | Successive reports are more than a minute apart with a good probe between them |
| Weighted.NewWeighted | backend/cmd/argos/cli_demo_dense.go:133-141 | The running totals of the weights |
| Weighted.Pick | backend/cmd/argos/cli_demo_dense.go:143-146 | The least-index search finds the stretch a draw lies in |
| Weighted.OneIndexPerDraw | backend/cmd/argos/cli_demo_dense.go:143-146 | Each draw selects one index |
| Weighted.DrawsPerIndex | backend/cmd/argos/cli_demo_dense.go:143-146 | Of the draws below the total exactly w[i] select i |
| Weighted.BucketCounts | backend/cmd/argos/cli_demo_dense.go:574-597 | The parts are the rounded-down shares, the leftover, smaller than the number of buckets, goes to the newest, and the parts sum to the total |
| Weighted.LeftoverIsSmall | backend/cmd/argos/cli_demo_dense.go:589-596 | Rounding down loses less than one row a bucket |
| Weighted.SharesAreFair | backend/cmd/argos/cli_demo_dense.go:589-596 | Each part is within one row below its exact share, the leftover of the newest aside |

## Left out

- TranslationMeaning: path globs, header and query texts, regular expressions and address ranges are uninterpreted tests of the request.
- RouteCompiler: health checks and their expected status, X-Auth headers of forward auth, issuer and DNS details of ACME policies, logging, trusted proxies, the WAF directive text and the rendering of a dial as one string.
- HostsToCaddyConfig: issuers, DNS details, logging and trusted proxies, as for RouteCompiler; case folding and trimming are those of ASCII letters and blanks.
- Apply: import plans, counts and warnings; the JSON of actions and matchers is opaque, and so is a forward action's group id, which an import does not remap.
- Export: timestamps and versions of a bundle, and its YAML form.
- ReplaceRoundTrip: rules of one name change their order, so notification rules are compared as multisets.
- MergingOwnExportIsNoOpIff: for configurations whose notification rules have different names, since merging replaces all rules of a name.
- PinnedStaysFresh: assumes that loads succeed and that each round ends within TTL less WarmInterval of its tick, as the interval is chosen for.
- StitchingRefinesDirectPass: granularities of whole hours; the 15-minute series, percentiles, histograms and rollup paths are not modelled.
- TrafficStitched: the separate series below an hour, percentiles, histograms and paths; a host filter is covered by HostFilterStaysExact.
- AddRollup: the histogram and the top paths a rollup row adds to.
- AddRow: the histogram and the top paths an access row adds to.
- ClosedHoursTotal: that the filled rollup is exact is an assumption; the SQL that fills it is not modelled.
- CodesAreConserved: bcrypt, rate limits and session storage; requests, regeneration, enrolling and disabling are the only writers; an unreadable or missing blob while 2FA is on is an invalid request, where the source reports an error.
- CompletedBootRestores: crashes, not failing copies; extraction of the archive happens before the flag is set.
- Reconcile: unreadable tables, which the source reports as errors; a purge of old backups would only add a loop with one test.
- Scan: the order of alerts with equal times, and with it the host named in a burst event.
- Summarize: last-seen times, messages and the hosts of an address.
- Compute: messages, last-seen times, top-N cuts and the cached fetch with its fallback windows.
- BucketCounts: 64-bit overflow.
- RunsKeepCertificates: failing storage, and a crash between the two file renames; validation of uploads; configuration imports, which ImportKeepsRowsIff covers.
- InvalidateForcesAPass: an invalidation while a pass runs is not covered, because that pass's results are stored all the same.
- Tick: an unset emitter, and the texts of events.
- HTTP handlers, SSE, CSV, the frontend, LAPI and Caddy clients, GeoIP, cron, archive formats and cryptography.
- Settings validators, presets, audit rows and safe-redirect checks would only add members with one branch.

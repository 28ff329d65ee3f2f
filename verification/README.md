# TeleRoute: a verified model of the state machines behind the SQL

TeleRoute keeps telephone routes, purchased numbers, calling campaigns, server priorities,
tariffs and a SPAM reputation ledger in a SQL database. Its write methods are small state
machines: each one completes and commits, or is refused by a business rule and rolls back.
This project models those machines and the algorithms around them, and proves what every
run of them keeps.

Tables are values (`Tables`), one committed call is `Step`, and a run is `Run`, a fold of
`Step` over any list of calls, refused ones included. Where the program works by changing
things step by step there is also a class with the tables as fields; each of its methods is
proved to be accepted exactly when the specification accepts the call, and to leave exactly
the tables that `Step` gives. The results about runs are lemmas about `Step` and `Run`.

What the specification functions compute is in turn stated without them. Each main method
also ensures when it is accepted and what the tables then hold, field by field, in
predicates that no operation uses; the `...Meaning.dfy` files hold them with the lemmas
that connect the two.

| file | part of the system |
|---|---|
| `Common.dfy` | option and result types, first occurrences of a list, positions that satisfy a property |
| `CampaignRouting.dfy`, `CampaignVersions.dfy`, `CampaignTimeline.dfy`, `CampaignReplay.dfy`, `CampaignComments.dfy`, `CampaignMeaning.dfy`, `CampaignStore.dfy` | versioned campaign settings driven by the event log |
| `OptimisticLocking.dfy` | interleaved editors of routes, tariffs and campaigns |
| `CycleAudit.dfy` | the prerequisite-cycle search of the write-plan audit |
| `PhoneLinks.dfy`, `PhoneLinkProofs.dfy`, `PhoneMeaning.dfy`, `PhoneLinkStore.dfy`, `PhoneMigration.dfy` | numbers, their links to routes, the link history, the legacy migration |
| `ServerPriority.dfy`, `PriorityStore.dfy` | server priorities and provider changes |
| `SpamLedger.dfy`, `SpamMeaning.dfy`, `SpamStore.dfy`, `SpamParser.dfy` | the SPAM score, batch saving, the response parser |
| `Archivarius.dfy`, `Relay.dfy` | keyset pages, the full snapshot, the outbound relay with crashes |
| `Decimals.dfy`, `Tariffs.dfy` | decimal conversion and the tariff table |
| `Importer.dfy`, `ImporterMeaning.dfy`, `RouteRollback.dfy` | CSV preview and import, rollback of imported routes |
| `QueryText.dfy`, `QueryMeaning.dfy`, `QueryBuilder.dfy`, `QueryLists.dfy`, `RoutingLists.dfy` | filters, statements with positional parameters, a parser and evaluator of their conditions, the rows they select |

Some promises hold only under a condition, and some not at all; these are stated as such:

* Validity intervals of a campaign stay ordered under a call exactly when the instant it
  writes is not before the last one (`TimelineKeptIff`; a run that loses the order:
  `BackdatedCloseLosesOrder`).
* An edit of an event's comment keeps the active setting's comment equal to that of the last
  event exactly when `EditIsSafe` holds (`EditKeepsAgreementIff`, `BackdatedEditLosesAgreement`).
* A save with a token goes through exactly when the last version carries the stamp of the
  version shown (`SaveAcceptedIff`). With stamps that never repeat no update is lost; two
  overlapping transactions that began at the same instant do lose one
  (`OverlappingSavesLoseAnUpdate`).
* The relay needs ids to become visible in increasing order (`LateEventSkippedIff`,
  `LateEventIsSkipped`).
* The snapshot is the whole table exactly when ids are positive (`WholeTableIffPositiveIds`).
* The migration makes links consistent for all data, but inactive phones only when the legacy
  rows were retired cleanly (`InactivePhonesUnusedIff`, `UndatedPhoneStaysUsed`).
* A provider change keeps routes in their country only under a condition the code does not
  check (`ProviderChangeKeepsCountryIff`, `ProviderChangeLosesCountry`).
* An EUR price is the exact product rounded once, unless the product has more than 28 digits
  and its rounding to 28 goes up to an exact tie at the seventh place; it is then a
  millionth too high (`EurPriceIsExactIff`, `LongPriceIsRoundedTwice`). A price that its
  column rounds is converted unrounded, so the EUR price need not follow from the columns
  until a recalculation repairs it (`EurPriceFollowsIff`, `OverlongPriceIsInconsistent`).
* The cycle search raises a lookup error when a batch lists a malformed batch
  (`ClosedIffPrerequisitesWellFormed`, `MalformedPrerequisiteFails`).
* Importing a file of routes and rolling it back restores the table exactly when the routes
  that were there before are referred to and the file leaves them alone
  (`RollbackRestoresIff`): an older route without references is deleted with the new ones
  (`OlderRouteIsLost`).
* Importing a file again leaves every record as it is, but for a phone that the first import
  created without an assignment: the second one makes it "other"
  (`SecondImportChangesNothingIff`, `SecondImportCanChange`).
* Splitting a condition on " AND " gives its parts back exactly when no part has an AND of
  its own (`SplitUndoesJoinIff`); the compound conditions are therefore added after the split.

## Model

| member | source | states |
|---|---|---|
| `CycleAudit.Search.Visit` | `scripts/audit_repository_postgres_write_plan.py:133-136` | the recursion ends (fewer unseen names each time), keeps `active` equal to the current search path, and leaves its argument settled: reported, or finished with only reported or earlier finished names below it; it fails only on a missing entry |
| `CycleAudit.Search.Report` | `scripts/audit_repository_postgres_write_plan.py:134-134` | reaching a name on the current path appends it to the report, and that name lies on a cycle |
| `CycleAudit.Search.VisitPrerequisites` | `scripts/audit_repository_postgres_write_plan.py:136-136` | after the inner loop every prerequisite is settled and the path is as before |
| `CycleAudit.Search.Leave` | `scripts/audit_repository_postgres_write_plan.py:136-136` | leaving a name shortens the path by it and settles it |
| `CycleAudit.VisitAll` | `scripts/audit_repository_postgres_write_plan.py:137-137` | the outer loop finishes every name exactly when every prerequisite has an entry |
| `CycleAudit.Detect` | `scripts/audit_repository_postgres_write_plan.py:132-137` | the report meets every cycle, names only members of cycles, and is empty exactly when the graph is acyclic |
| `CycleAudit.DependencyCycles` | `scripts/audit_repository_postgres_write_plan.py:132-139` | it fails exactly when a batch lists an entry of the plan that is no batch; otherwise every name reported lies on a closed walk of prerequisites between batches of the plan, every such walk has a reported name, and nothing is reported exactly when there is none |
| `CycleAudit.EdgeIff` | `scripts/audit_repository_postgres_write_plan.py:132-132` | x leads to y exactly when x is a batch that lists y and y is in the plan |
| `CycleAudit.ReportDecidesAcyclicity` | `scripts/audit_repository_postgres_write_plan.py:138-139` | names that lie on cycles and meet every cycle are none exactly for an acyclic graph |
| `CycleAudit.ClosedIffPrerequisitesWellFormed` | `scripts/audit_repository_postgres_write_plan.py:132-132` | the lookup of a prerequisite's edges can fail exactly when a well-formed batch lists a malformed one |
| `CycleAudit.MalformedPrerequisiteFails` | `scripts/audit_repository_postgres_write_plan.py:132-132` | a plan for which the lookup fails |
| `CycleAudit.EveryCycleHit` | `scripts/audit_repository_postgres_write_plan.py:132-137` | once all names are finished in an order where edges lead down or to reported names, every closed walk passes a reported name |
| `CycleAudit.BackEdgeClosesCycle` | `scripts/audit_repository_postgres_write_plan.py:134-134` | an edge from the end of the path back into it closes a cycle through its target |
| `CampaignVersions.AtMostOneOpenVersion` | `app/repository.py:2755-2969` | after any run, direct edits included, each campaign has at most one open version, its newest; every closed version is inactive |
| `CampaignTimeline.TimelineKeptIff` | `app/repository.py:2860-2969` | an accepted call keeps a campaign's intervals disjoint and ordered exactly when the instant it writes (if any) is not before the last one written |
| `CampaignTimeline.BackdatedCloseLosesOrder` | `app/repository.py:2943-2969` | a run that loses the order: a campaign created at 10 and deactivated as of 5 |
| `CampaignTimeline.OrderedCallsOrderedIntervals` | `app/repository.py:2770-2937` | when effective instants never go back, all intervals of every campaign are pairwise disjoint and ordered at the end of every run |
| `CampaignTimeline.VersionChangeHandsOver` | `app/repository.py:2876-2937` | whenever the open version changes, the old one closes at exactly the instant the new one opens |
| `CampaignTimeline.ClosedVersionsAreImmutable` | `app/repository.py:2860-2969` | no call rewrites a closed version, drops one or moves one to another campaign |
| `CampaignReplay.EventSetsCurrent` | `app/repository.py:3252-3298` | an accepted event leaves the routing it announces in force, whether that opens, replaces or closes a version: a switch changes autorotation alone, a route event the route alone, and the mode is the one that goes with both |
| `CampaignReplay.EventSparesOthers` | `app/repository.py:3252-3298` | other campaigns keep their version |
| `CampaignReplay.SettingsReplayTheLog` | `app/repository.py:3428-3497` | in every event-driven run the active setting of each campaign, or its absence, is the replay of its whole log (deactivated events included) from its initial state; each event records the state it found and the one that follows by its kind, with their modes |
| `CampaignMeaning.RoutingIsLastWord` | `app/repository.py:3428-3497` | at the end of every event-driven run the route in force is the one the campaign's last route event set (none after a removal or without one), autorotation is as its last switch left it or as at first, and the mode is the one that goes with them |
| `CampaignMeaning.InForceIsLastOpen` | `app/repository.py:3036-3045` | routing and mode in force are those of the last open version; without one no route, no autorotation and the server's priority |
| `CampaignMeaning.EventAcceptedIff` | `app/repository.py:3428-3497` | when an event is accepted, in terms of the tables: reason, comment, an active campaign, a change that is not the case yet, and for a routing that needs a version the campaign's server, GEO and a route of that GEO |
| `CampaignMeaning.EventIsFiled` | `app/repository.py:3498-3587` | one event is added, with the routing found, the one that follows from its kind, their modes and the GEO of the route or campaign |
| `CampaignMeaning.EventMovesVersions` | `app/repository.py:3252-3298` | the open version is closed at the event's instant, and one with the new routing is opened then exactly if it has a route or autorotation |
| `CampaignMeaning.EventIsInForce` | `app/repository.py:3252-3298` | and the routing that follows from the kind of the event is in force |
| `CampaignMeaning.SchemeAllowedIff` | `app/repository.py:2510-2547` | when a version may be written |
| `CampaignMeaning.EditWritesComment` | `app/repository.py:3803-3837` | a new comment goes into the event and into exactly the version the event describes |
| `CampaignMeaning.CompanyAcceptedIff` | `app/repository.py:1103-1172` | the initial version of a new campaign passes every check its campaign has passed |
| `CampaignReplay.ActiveIffReplayNeedsVersion` | `app/repository.py:3033-3045` | an active version exists exactly when the replayed state has a route or autorotation |
| `CampaignReplay.OldStateIsPreviousNewState` | `app/repository.py:3428-3497` | each event's recorded old state and mode are the new state and mode of the campaign's previous event |
| `CampaignReplay.LastEventIsCurrent` | `app/repository.py:3012-3045` | the campaign's last event describes the routing and mode in force |
| `CampaignReplay.SwitchesAlternate` | `app/repository.py:3428-3497` | between two events that switch autorotation the same way lies one that switches it back |
| `CampaignComments.EditsTouchOnlyComments` | `app/repository.py:3760-3837` | a comment edit changes no route, mode, autorotation, instant, owner or status, of any version or event |
| `CampaignComments.EventBringsComment` | `app/repository.py:3252-3280` | an accepted event's comment becomes the comment in force, even when the routing version is new |
| `CampaignComments.EditKeepsAgreementIff` | `app/repository.py:3803-3837` | an event-comment edit keeps the setting's comment equal to the last event's exactly when the edited event is the last and no active event is later in time, or is shadowed by a later one, or describes another routing, or is given the last event's comment |
| `CampaignComments.BackdatedEditLosesAgreement` | `app/repository.py:3803-3837` | a run whose last event is backdated, after which an edit of that event leaves the setting with another comment |
| `CampaignComments.ActiveCommentIsLastEvents` | `app/repository.py:3760-3837` | in event-driven runs with nondecreasing instants and without deactivation, an active setting shows its campaign's last event's comment after any sequence of edits |
| `CampaignStore.Store.CreateSetting` | `app/repository.py:2755-2814` | accepted exactly when campaign, server, GEO, route and mode agree and no version is open; one open version is added |
| `CampaignStore.Store.UpdateSetting` | `app/repository.py:2860-2941` | a mere comment change stays in the version; any other closes it and opens its successor at the same instant |
| `CampaignStore.Store.EditSettingComment` | `app/repository.py:2816-2858` | only an open version can be commented, and only its comment changes |
| `CampaignStore.Store.DeactivateSetting` | `app/repository.py:2943-2969` | only an open version can be closed, and it is closed at the given instant |
| `CampaignStore.Store.CreateCompany` | `app/repository.py:1103-1172` | a new campaign gets an autorotation version exactly when it starts with autorotation; refused without name or external id and on a repeated external id |
| `CampaignStore.Store.CreateCampaignEvent` | `app/repository.py:3300-3587` | the event is accepted exactly when it may happen; it is then filed with the routing it found and the one it leads to, the open version is closed and its successor opened at that instant, and the routing in force follows from the kind of the event; a refusal changes nothing |
| `CampaignStore.Store.EditEventComment` | `app/repository.py:3760-3801` | the event's comment and that of the version it describes change together, and nothing else |
| `CampaignStore.Store.DeactivateEvent` | `app/repository.py:3839-3865` | refused without a reason or for an inactive event; only the event's active flag changes |
| `OptimisticLocking.NoUpdateIsLost` | `app/repository.py:1849-1903` | under any interleaving with fresh stamps the accepted writes form one chain; each write with a token replaced the very version its form showed, and the old values it logged are those it overwrote |
| `OptimisticLocking.OneWinnerPerVersion` | `app/repository.py:2064-2124` | two accepted writes with tokens never carry the same token |
| `OptimisticLocking.SelectRefusesIffOvertaken` | `app/repository.py:1849-1870` | reading the row refuses a token exactly when a write was committed since the form was loaded |
| `OptimisticLocking.UpdateRefusesIffOvertaken` | `app/repository.py:1224-1307` | the conditional UPDATE refuses exactly then, and otherwise saves |
| `OptimisticLocking.UndisturbedSaveSucceeds` | `app/repository.py:1849-1903` | without intervening commits the save goes through (a tariff form unless it repeats price, currency, comment and current flag), and the row is the old one overlaid with the form |
| `OptimisticLocking.TariffSaveIff` | `app/repository.py:2064-2124` | a tariff form whose token fits is found without changes exactly when it repeats the row's price, currency, comment and current flag; otherwise it is saved and the row is overlaid with it |
| `OptimisticLocking.UndisturbedTariffSaveIff` | `app/repository.py:2064-2124` | so it is whenever nothing has been committed since the form was loaded |
| `OptimisticLocking.SaveWithoutTokenOverwrites` | `app/repository.py:1849-1903` | a route or campaign form without a token is saved over whatever others commit before or after it is read |
| `OptimisticLocking.SavedFieldByField` | `app/repository.py:1849-1903` | the row an accepted save leaves, field by field: the form's value; for a field the form leaves out and the program writes back, the value read, even if it has changed since; otherwise what is there |
| `OptimisticLocking.SaveAcceptedIff` | `app/repository.py:1224-1307` | in every run, whatever its stamps, a save with a token goes through exactly when the last version carries the stamp of the version its form showed |
| `OptimisticLocking.UpdateLostIff` | `app/repository.py:1849-1903` | it overwrites versions its editor never saw exactly when there are such versions and the last repeats the stamp of the version shown |
| `OptimisticLocking.OverlappingSavesLoseAnUpdate` | `app/repository.py:1849-1903` | a run with two overlapping saves without tokens that share a start instant, after which a third editor's token lets it overwrite the second save unseen |
| `PhoneLinkProofs.EveryRunIsValid` | `app/repository.py:953-1094` | in every reachable state an active link has an active phone in use, an inactive phone is unused and dated, problematic implies review, numbers are unique, a pair has at most one active link, and the history matches |
| `PhoneLinkProofs.AddedLessRemovedIsActive` | `app/repository.py:1076-1094` | for every route and phone, `added` less `removed` entries is the number of active links, which is 0 or 1 |
| `PhoneLinkProofs.ActionsAlternate` | `app/repository.py:1598-1621` | additions and removals of a pair strictly alternate |
| `PhoneLinkProofs.HistoryDeterminesLinks` | `app/repository.py:1685-1713` | two valid states with the same history have the same live links |
| `PhoneLinkProofs.RemovalsCloseTheChosen` | `app/repository.py:1598-1621` | whatever the order and repetition of ids, exactly the chosen active links of the route close, with one history entry each |
| `PhoneLinkProofs.ImportSparesProblematicLinks` | `app/repository.py:4414-4500` | an import row for an active, problematic, linked number keeps its links and its use |
| `PhoneLinkStore.Store.CreatePhone` | `app/repository.py:927-1031` | accepted exactly for a number of 7 to 21 digits without a leading zero that no row has; the row stored says used exactly for an active phone submitted as used, and problems, review and the date follow |
| `PhoneLinkStore.Store.AddLink` | `app/repository.py:1033-1101` | accepted exactly for an active phone without such a link and an existing route; the link, its history entry and the phone's use appear together |
| `PhoneLinkStore.Store.AddLinkByNumber` | `app/repository.py:1561-1596` | the same for the phone found by its number |
| `PhoneLinkStore.Store.RemoveLinks` | `app/repository.py:1598-1626` | exactly the named active links of the route close at the instant given; the count returned is the number closed, even with repeated ids |
| `PhoneLinkStore.Store.UpdatePhone` | `app/repository.py:1628-1719` | accepted exactly when specified; the phone is in use exactly when submitted active and as used, unused when inactive or submitted as unused, reserved or free; in use it keeps its links, otherwise all its active links close with one removal each |
| `PhoneLinkStore.Store.ImportPhone` | `app/repository.py:4414-4500` | the same for an import row, with problems and reviews kept and a problematic active linked phone kept in use |
| `PhoneMeaning.CreationMeans` | `app/repository.py:927-1031` | when a creation is accepted and what row it adds, field by field |
| `PhoneMeaning.UpdateAcceptedIff` | `app/repository.py:1652-1664` | when an update is accepted, in terms of the submitted form and the rows |
| `PhoneMeaning.UpdateMeans` | `app/repository.py:1654-1719` | the row, the links and the history an update leaves |
| `PhoneMeaning.ImportAcceptedIff` | `app/repository.py:4414-4500` | when an import row over an existing phone is accepted |
| `PhoneMeaning.ImportMeans` | `app/repository.py:4414-4500` | the row, the links and the history it leaves |
| `PhoneMeaning.RemovalsAreRecorded` | `app/repository.py:1685-1700` | the history grows by one removal for each active link of the phone, in their order, and by nothing else |
| `PhoneMigration.Migrate` | `scripts/migrate_sqlite_to_postgres.py:332-412` | succeeds exactly when numbers are well formed and unique, problems reviewed, and links have phones and are not doubled; every row and link is then converted as its columns say |
| `PhoneMigration.RowsFitIff` | `scripts/migrate_sqlite_to_postgres.py:332-365` | the row-by-row inserts succeed exactly when the legacy rows fit together |
| `PhoneMigration.MigratedMeans` | `scripts/migrate_sqlite_to_postgres.py:332-412` | each migrated phone and link, column by column |
| `PhoneMigration.ReconciliationEstablishesLinks` | `scripts/migrate_sqlite_to_postgres.py:398-407` | after it every active link has an active phone in use, a pair has at most one, and problems are under review |
| `PhoneMigration.ReconciliationKeepsLinksOfActivePhones` | `scripts/migrate_sqlite_to_postgres.py:398-407` | a link is active afterwards exactly when it was and its phone is active; links of active phones are unchanged |
| `PhoneMigration.InactivePhonesUnusedIff` | `scripts/migrate_sqlite_to_postgres.py:332-365` | the phone part of the invariant holds exactly when every inactive legacy row was dated and had a status that maps to unused |
| `PhoneMigration.UndatedPhoneStaysUsed` | `scripts/migrate_sqlite_to_postgres.py:332-365` | a legacy row for which it does not hold |
| `ServerPriority.EventSwitchesServer` | `app/repository.py:3532-3578` | after an accepted event every selected server has the route, the overflow flag and, if it is set, the overflow route of the event; one that did not remembers its former route; one that did is untouched |
| `ServerPriority.EventSparesOthers` | `app/repository.py:3532-3578` | unselected rows are neither changed, created nor removed |
| `ServerPriority.EventRecordsServers` | `app/repository.py:3199-3250` | one record per distinct selected server, with its former and new route, marked applied exactly where the row was absent or differed in route, flag or overflow |
| `ServerPriority.EventRecordsEach` | `app/repository.py:3532-3578` | every selected server has its record |
| `ServerPriority.EventTookPlace` | `app/repository.py:3532-3578` | an accepted event switches every selected server and spares the others |
| `ServerPriority.EventIsRecorded` | `app/repository.py:3532-3578` | its records: one for each selected server, none for any other, at least one marked applied |
| `ServerPriority.EventAcceptedIff` | `app/repository.py:3396-3427` | when an event is accepted, check by check |
| `ServerPriority.ChangeMovesServers` | `app/repository.py:4040-4058` | a provider change to another provider with a route puts that route, without overflow, on the named servers, which remember their former route; all other rows stay |
| `ServerPriority.RepeatedEventIsRefused` | `app/repository.py:3396-3427` | submitting the same event again at once is refused and changes nothing |
| `ServerPriority.OverflowFlagMatchesRoute` | `app/repository.py:4047-4058` | in every reachable row the overflow flag is set exactly when an overflow route is, and that route is of the row's country |
| `ServerPriority.EventKeepsCountry` | `app/repository.py:3396-3427` | events keep current routes within the row's country |
| `ServerPriority.ProviderChangeKeepsCountryIff` | `app/repository.py:3956-4058` | provider changes do exactly when they move no server or their route is of the country named |
| `ServerPriority.ProviderChangeLosesCountry` | `app/repository.py:3956-4058` | a run in which a provider change moves a server to a route of another country |
| `PriorityStore.Store.CreatePriorityEvent` | `app/repository.py:3300-3587` | accepted exactly when the event may happen; every selected server then has exactly the route and overflow asked for and remembers its former route, unselected rows are as before, and each selected server has one record |
| `PriorityStore.Store.NormalizeServers` | `app/repository.py:3186-3197` | the selected ids once each, in order of first mention |
| `PriorityStore.Store.ExamineServers` | `app/repository.py:3199-3250` | refused on an unknown or inactive server, or when no server would change |
| `PriorityStore.Store.CreateProviderChange` | `app/repository.py:3956-4082` | accepted exactly when reason, servers and the routes' providers fit; moved servers remember their former route and lose their overflow, all other rows stay |
| `PriorityStore.Store.UpdatePriority` | `app/repository.py:4129-4193` | a direct edit changes current and previous route, and only for a route of the row's country |
| `SpamLedger.ScoreIsFoldOfResults` | `app/repository.py:4904-4963` | in every reachable state each stored score is the fold of the phone's saved results from 0, every row records the score it found, and tokens are unique |
| `SpamLedger.ReplayMonotoneNonExpansive` | `app/spam_checker.py:31-39` | starting higher never ends lower, nor further apart than at the start |
| `SpamLedger.DeltasTelescope` | `app/repository.py:4938-4949` | a phone's recorded deltas add up to its stored score, which is within 0..5 |
| `SpamLedger.ConsecutiveResultsChain` | `app/repository.py:4938-4949` | each result's `score_before` is the `score_after` of the phone's previous result |
| `SpamLedger.SaveFlagsCrossings` | `app/repository.py:4950-4961` | a saved row that reaches 5 from below leaves its phone problematic and under review |
| `SpamLedger.CrossingsAreFlagged` | `app/repository.py:4950-4961` | a batch adds one row per hit and otherwise only raises flags |
| `SpamLedger.RepeatedTokenChangesNothing` | `app/repository.py:4904-4920` | a token repeated after any other calls, whatever it contains, changes nothing and gets the answer of its first save |
| `SpamStore.Store.SaveBatch` | `app/repository.py:4904-4963` | saved exactly for a new token when a result counts, none counts twice for a phone and none is filed twice under a route; one row is then added for each result that counts, with the score it found and moved to, and scores and flags follow; otherwise nothing changes; the reply says which |
| `SpamMeaning.ScoreChangeMeans` | `app/spam_checker.py:31-39` | a clear result takes one off the score, a report by Hiya alone adds one, any other source makes it two, within 0..5 |
| `SpamMeaning.HitsArePicked` | `app/repository.py:4921-4936` | the results that count, in order: number asked for and known, a ready verdict, and the phone linked to every route |
| `SpamMeaning.SavableIff` | `app/repository.py:4904-4963` | when a batch is saved |
| `SpamMeaning.SaveMeans` | `app/repository.py:4937-4962` | the rows, scores and flags a saved batch leaves, all read off the state in which it began |
| `SpamMeaning.ReplyMeans` | `app/repository.py:4904-4963` | which reply is given, and what its numbers are |
| `SpamStore.Store.FileHits` | `app/repository.py:4937-4962` | the save loop gives the specified tables, and fails exactly when a phone occurs twice or a result is filed twice under a route |
| `SpamParser.ParseResponse` | `app/spam_checker.py:42-87` | every number asked for or reported has one row, which says what the lines say about it: spam, clear, both or nothing, the sources, and whether it is said twice; the summary counts rows by status and verdict |
| `SpamParser.RowsSayWhatLinesSay` | `app/spam_checker.py:64-87` | verdict, status, sources and duplicate flag of each row in terms of the lines about its number |
| `SpamParser.SummaryCounts` | `app/spam_checker.py:64-87` | each number of the summary is the number of rows (or of numbers asked for) it names |
| `SpamParser.Collect` | `app/spam_checker.py:45-62` | the dictionary filled line by line holds, for each number found, what all lines say about it |
| `SpamParser.BestSource` | `app/spam_checker.py:23-29` | a source of the result, Hiya only if there is no other |
| `SpamParser.EachNumberOnce` | `app/spam_checker.py:64-87` | each number expected or found has exactly one row, and no other number has one |
| `SpamParser.SummaryAddsUp` | `app/spam_checker.py:64-87` | requested = received + missing, received = spam + clear + errors, extras are found minus expected |
| `SpamParser.PermutedLinesSameFindings` | `app/spam_checker.py:42-87` | permuting the lines changes no number's verdict, status, duplicate flag or set of sources |
| `SpamParser.PermutedLinesSameScore` | `app/spam_checker.py:31-39` | nor what a saved result does to the score |
| `SpamParser.PermutedLinesSameReport` | `app/spam_checker.py:42-87` | every row of one order has a row with the same finding in the other |
| `Archivarius.ParsePagination` | `app/archivarius.py:55-66` | accepted exactly for integers with a cursor from 0 and a limit within 1..1000; absent, the cursor is 0 and the limit 500, for events 200 |
| `Archivarius.PageIsStretch` | `app/archivarius.py:99-103` | a page is the next stretch of the id-ordered scan, full if more is announced and final otherwise |
| `Archivarius.PageAdvances` | `app/archivarius.py:69-76` | page and what its cursor asks for make up what was asked; a page with more behind it is nonempty and strictly advances the cursor |
| `Archivarius.ReadAll` | `app/archivarius.py:246-258` | the snapshot loop ends and yields the scan from cursor zero for any limit: the rows with a positive id, none lost or repeated |
| `Archivarius.WholeTableIffPositiveIds` | `app/archivarius.py:246-258` | that scan is the whole table exactly when all ids are positive |
| `Archivarius.GroupLinks` | `app/archivarius.py:120-151` | the dictionary of links holds, for each id of the page, all its links in order |
| `Archivarius.LinksOfAreActive` | `app/archivarius.py:120-151` | the links of a route are its active links, each once, in order |
| `Archivarius.RoutesPage` | `app/archivarius.py:120-151` | a page whose links are looked up for its rows only is the page of the fully joined table |
| `Archivarius.ReadAllRoutes` | `app/archivarius.py:246-258` | the paged snapshot of routes equals the full scan with all links |
| `Relay.NoEventIsSkipped` | `scripts/archivarius_push.py:62-75` | whatever crashes and failures occur, the pages whose acknowledgement was saved are, in order, exactly the eligible events up to the saved cursor |
| `Relay.EligibleIff` | `app/archivarius.py:16-16` | the feed exports exactly the log's entries of the five entity types |
| `Relay.InvDeliversAllBelow` | `scripts/archivarius_push.py:62-75` | every eligible event at or below the cursor was in a delivered page |
| `Relay.CursorNeverDecreases` | `scripts/archivarius_push.py:22-37` | the saved cursor never goes back |
| `Relay.DuplicatesComeFromUnsavedDeliveries` | `scripts/archivarius_push.py:62-75` | an event received twice was first received in a delivery whose acknowledgement was never saved |
| `Relay.LateEventSkippedIff` | `app/archivarius.py:235-244` | an event that becomes visible out of order is missed exactly when it is eligible and not above the saved cursor |
| `Relay.LateEventIsSkipped` | `app/archivarius.py:235-244` | a run after which such an event is missed |
| `Relay.UndisturbedStepsDeliver` | `scripts/archivarius_push.py:62-75` | the four undisturbed steps amount to one saved delivery of the next page |
| `Relay.DeliveryMakesProgress` | `scripts/archivarius_push.py:62-75` | each takes a full page, or everything, off what remains |
| `Relay.EventuallyAllDelivered` | `scripts/archivarius_push.py:62-75` | enough of them deliver every eligible event |
| `Relay.Script.RunOnce` | `scripts/archivarius_push.py:62-75` | one invocation, killed anywhere, takes a prefix of the protocol's steps; the cursor file changes only after an acknowledgement |
| `Decimals.HalfUpWithinHalf` | `app/repository.py:273-275` | half-up rounding is off by at most half a unit, ties upwards |
| `Decimals.ToPlacesOfPadded` | `app/repository.py:273-275` | trailing zeros do not matter |
| `Decimals.EurPriceIsExactIff` | `app/repository.py:273-275` | for all prices and rates: the EUR price is the exact product rounded half up to 6 places (or too large for its column, as that is) unless the product exceeds 28 digits, its rounding goes up to a tie at the seventh place, and the exact price fits; it is then a millionth more |
| `Decimals.ShortNumbersAreExact` | `app/repository.py:273-275` | a price and a rate whose values have at most 6 and 8 decimals convert exactly, however many zeros they are written with |
| `Decimals.SecondRounding` | `app/repository.py:273-275` | rounding half even and then half up is rounding half up once, but for a first rounding up to a tie |
| `Decimals.EurPriceWithinHalf` | `app/repository.py:273-275` | it is then within half a millionth of price times rate |
| `Decimals.ColumnScalePricesAreExact` | `app/repository.py:273-275` | a price and a rate in their columns' scale always convert exactly, or overflow the column |
| `Decimals.LongProductOverflows` | `app/repository.py:273-275` | a product beyond the precision with at most 14 decimals is too large for the column |
| `Decimals.LongPriceIsRoundedTwice` | `app/repository.py:273-275` | a concrete longer price that is rounded twice, up to a tie |
| `Decimals.RateOneIsIdentity` | `app/repository.py:3994-3996` | a stored price converts to itself at rate one |
| `Tariffs.AtMostOneTariffPerIdentity` | `app/repository.py:1909-1954` | in every reachable state at most one tariff, current or not, exists per country, provider and prefix |
| `Tariffs.EurPriceFollowsIff` | `app/repository.py:1931-2293` | after any run, a tariff's EUR price is stored price times stored rate rounded half up exactly when a recalculation wrote it last, or the form that did has the same EUR price as its rounded columns |
| `Tariffs.EurPricesFollowFromColumns` | `app/repository.py:2064-2124` | so it is for every tariff whose last form was stored without rounding, however it was written, or that has been recalculated since |
| `Tariffs.ColumnKeepsIff` | `docs/postgres/schema.postgres.sql:169-170` | a column keeps a submitted number as it is exactly when the decimals it drops are zeros |
| `Tariffs.OverlongPriceIsInconsistent` | `app/repository.py:1951-1983` | a concrete price that its column rounds, for which it is not |
| `Tariffs.RecalculationTouchesOnlyItsCurrency` | `app/repository.py:2211-2293` | exactly the tariffs that are current and of the rate's currency change, in rate and EUR price only, and become consistent |
| `Tariffs.ConvertsIff` | `app/repository.py:2211-2293` | a stored price converts at a stored rate exactly when their product, rounded half up, fits the price column, and to that |
| `Tariffs.RecalculationIsIdempotent` | `app/repository.py:2211-2293` | a second recalculation at the same rate changes no value |
| `Tariffs.PriceDeltaIsExact` | `app/repository.py:3994-3996` | the logged price difference is the exact difference of the stored EUR prices |
| `Tariffs.Store.CreateTariff` | `app/repository.py:1931-2053` | accepted exactly for a positive price that with its rate fits the columns and an identity no tariff has; one current tariff with these columns is added |
| `Tariffs.Store.UpdateTariff` | `app/repository.py:2055-2124` | refused when the price is not positive or the conversion overflows, even without changes; a form that repeats price, currency, comment and current flag is accepted without effect; otherwise exactly that tariff takes the form's columns |
| `Tariffs.Store.SetTariffActive` | `app/repository.py:2126-2159` | only the current flag of that tariff changes |
| `Tariffs.Store.CreateCurrencyRate` | `app/repository.py:2161-2209` | a positive rate that fits its column is added |
| `Tariffs.Store.RecalculateCurrent` | `app/repository.py:2211-2293` | accepted exactly when every current tariff of the currency has a product that fits; these take the rate and the product, the rest stay, and exactly their ids are reported in order |
| `Importer.PreviewImport` | `app/importer.py:79-134` | the loop's counters and row statuses are those of the reference definition over the whole file |
| `ImporterMeaning.PreviewMeans` | `app/importer.py:79-134` | what each status says about its row, and that the counters count statuses |
| `Importer.PreviewAddsUp` | `app/importer.py:79-134` | new, known or repeated, and erroneous rows make up the file; a repeated number of a phone file counts twice |
| `Importer.CountsAddUp` | `app/importer.py:137-200` | in every finished import created + updated + skipped rows make up the file |
| `Importer.FirstRowDecides` | `app/importer.py:137-200` | the first row with a key alone decides, from the record that was there, whether it is created, updated, left or retired, and what it holds; keys not in the file are untouched |
| `ImporterMeaning.RouteWriteMeans` | `app/importer.py:437-492` | when a route row is refused or stops the import, and what is stored, column by column |
| `ImporterMeaning.PhoneWriteMeans` | `app/repository.py:4414-4460` | the same for a phone row, new or over an existing phone |
| `ImporterMeaning.ProviderCheckIsIdle` | `app/repository.py:4414-4460` | the refusal of a phone without provider and review never happens in an import |
| `ImporterMeaning.CompanyWriteMeans` | `app/importer.py:683-733` | the same for a campaign row |
| `Importer.CreatedIdsAreFresh` | `app/repository.py:860-925` | created records have distinct ids of their own |
| `Importer.CreatedAsPreviewed` | `app/importer.py:79-200` | without rejected rows, a row is previewed as new exactly when it is the first with its key and that key is created |
| `Importer.AsManyCreatedAsPreviewed` | `app/importer.py:79-200` | and as many records are created as rows were announced |
| `Importer.WritingAgain` | `app/importer.py:437-492` | writing a route or campaign row over its own result changes nothing, whatever columns the file has; a phone row fills in the assignment it left open |
| `Importer.SecondImportFills` | `app/repository.py:4414-4460` | importing a file again cannot fail and creates nothing; it leaves every record as it is but for phones created without an assignment, which become "other" unless known records are skipped |
| `Importer.SecondImportChangesNothingIff` | `app/importer.py:494-558` | so it changes nothing exactly when known records are skipped or no first row of a new number lacks an assignment |
| `Importer.SecondImportCanChange` | `app/importer.py:494-558` | a file of one new number with a blank assignment is changed by its second import |
| `Importer.Section.ApplyImport` | `app/importer.py:137-200` | a phone or company file with preview errors is refused unchanged; otherwise table and counters are those of the specification, and a database error ends the import with the rows written so far |
| `RouteRollback.AsManyAsPreviewed` | `app/importer.py:796-862` | the routes deleted are as many as the preview announced, however often rows repeat |
| `RouteRollback.ReportAddsUp` | `app/importer.py:796-830` | every row of the file falls under exactly one count |
| `RouteRollback.BlockersAreComplete` | `app/importer.py:775-793` | the blockers are all columns that restrict the deletion of a route, but for the history that a rollback deletes itself |
| `RouteRollback.RollbackKeepsIntact` | `app/importer.py:833-862` | a rollback leaves no reference of any table pointing at a deleted route |
| `RouteRollback.SecondRollbackDeletesNothing` | `app/importer.py:833-862` | rolling the same file back again deletes nothing |
| `RouteRollback.ImportThenRollback` | `app/importer.py:833-862` | after import and rollback a key of the file is left only if its route existed before and is referred to |
| `RouteRollback.RollbackRestoresIff` | `app/importer.py:833-862` | the routes are restored exactly when every route of the file that existed before is referred to and left alone: known records are skipped, or the writer refuses the first row or writes the same fields |
| `RouteRollback.OlderRouteIsLost` | `app/importer.py:833-862` | an import that changes nothing, whose rollback deletes an older route |
| `RouteRollback.NewRoutesRestoredIff` | `app/importer.py:137-200` | when the file held new keys only, they are restored exactly when no row is malformed or nothing was created |
| `RouteRollback.Store.HasBlockers` | `app/importer.py:816-820` | counting column by column finds exactly the references to a route |
| `RouteRollback.Store.PreviewRollback` | `app/importer.py:796-830` | the ready keys are those of routes the file names to which nothing but their history refers, and the counters count unreadable rows, repetitions, these routes and the rest |
| `RouteRollback.Store.DeleteRoute` | `app/importer.py:853-855` | deletes the route and its history, and is refused by the database exactly when a blocker refers to the route |
| `RouteRollback.Store.ApplyRollback` | `app/importer.py:833-862` | refused unchanged exactly if a row is malformed; otherwise exactly those routes and their history go, result rows that named them name none, everything else stays, and the count returned is the number of routes gone |
| `RouteRollback.WithoutMeans` | `app/importer.py:833-862` | which routes, history rows and references a rollback leaves |
| `RouteRollback.ReportMeans` | `app/importer.py:796-830` | what each count of the report counts |
| `QueryText.SplitUndoesJoinIff` | `app/repository.py:2623-2625` | splitting a joined condition on AND gives its parts back exactly when no part has an AND of its own |
| `QueryMeaning.DisjunctionReadBack` | `app/repository.py:278-305` | the parser, which takes a parameter at every placeholder and lets AND bind tighter than OR, reads every written condition back with its arguments |
| `QueryMeaning.AsManyParametersAsMarks` | `app/repository.py:1403-1466` | a statement has as many parameters as placeholders |
| `QueryMeaning.EachConditionGetsItsArguments` | `app/repository.py:1403-1466` | each condition stands in the text with as many placeholders before it as there are parameters before its own arguments |
| `QueryMeaning.QuerySelects` | `app/repository.py:278-305` | a statement built of a list of conditions, when parsed and evaluated with its parameters, selects exactly the rows of which all conditions hold |
| `QueryBuilder.QueryFilters` | `app/repository.py:278-305` | the loop gives the text and parameters of the specified conditions |
| `QueryBuilder.FilterStatementSelects` | `app/repository.py:278-305` | the statement made of a filter map selects exactly the rows that all supplied filters accept; neutral values and blank searches are ignored |
| `QueryBuilder.FilterTextSplits` | `app/repository.py:3630-3632` | the text of these filters can be split into its conditions again |
| `QueryBuilder.BoolMeaning` | `app/repository.py:2383-2390` | the condition of an optional boolean asks for true when it is given as true, 1 or "1", for false when given as false, 0 or "0", and there is none otherwise |
| `QueryBuilder.BoolIff` | `app/repository.py:2383-2390` | which values mean true, false, no filter, and which are not understood |
| `QueryMeaning.TrimmedTakesBlanks` | `app/repository.py:278-305` | stripping a search text takes off exactly the blanks at its ends |
| `QueryLists.ListRoutes` | `app/repository.py:1403-1466` | the statement and parameters returned select exactly the routes asked for; no rows for an unsupported boolean |
| `QueryLists.RouteListMeaning` | `app/repository.py:1403-1466` | evaluated with its parameters, the statement selects a route exactly when every supplied filter accepts it and the boolean is supported; missing numbers means an actual pool route without a phone in use |
| `QueryLists.LikeIsPrefix` | `app/repository.py:1438-1451` | the pool pattern asks for a prefix |
| `QueryLists.RouteAndPhoneQueriesAreAligned` | `app/repository.py:1403-1541` | as many parameters as placeholders in both statements, the leading one included |
| `QueryLists.ListPhoneNumbers` | `app/repository.py:1468-1541` | the statement and parameters returned select exactly the phones asked for; no rows for an unsupported boolean |
| `QueryLists.PhoneListMeaning` | `app/repository.py:1468-1541` | evaluated with its parameters, the statement selects a phone exactly when every supplied filter accepts it and all four booleans are supported |
| `RoutingLists.ListCompanyRoutingSettings` | `app/repository.py:2591-2663` | after splitting, appending and inserting at the front, the statement and parameters returned select exactly the versions asked for |
| `RoutingLists.InsertOpen` | `app/repository.py:2638-2641` | two conditions at the front of the text with one parameter at the front of the list |
| `RoutingLists.SettingListMeaning` | `app/repository.py:2591-2663` | evaluated with its parameters, the statement selects a version exactly when every supplied filter accepts it; without history only open active versions |
| `RoutingLists.SettingQueryIsAligned` | `app/repository.py:2591-2663` | as many parameters as placeholders |
| `RoutingLists.ListRoutingEvents` | `app/repository.py:3589-3665` | the statement and parameters returned, with the three-placeholder server condition in between, select exactly the events asked for |
| `RoutingLists.EventListMeaning` | `app/repository.py:3589-3665` | evaluated with its parameters, the statement selects an event exactly when every supplied filter accepts it; the server filter matches the event's own server, its server list, or its campaign's server |
| `RoutingLists.EventQueryIsAligned` | `app/repository.py:3589-3665` | as many parameters as placeholders, the four leading ones included |

## Left out

- SQL text beyond the filter conditions, the database driver, JSON and timestamp parsing: tables are values, instants are integers.
- Of SQL, the grammar of the conditions is modelled (comparisons, LIKE, searches, NULL tests, AND, OR, parentheses, EXISTS); a sub-select's FROM and the text before the WHERE stand as single words, and there is no ORDER BY.
- Labels, summaries, snapshots and history prose: display strings; change log contents likewise.
- Regular expressions, case folding and CSV sniffing: lines come classified, rows come with their business key, and stripping and case folding cover ASCII only.
- Request data is taken as already typed; conversions such as `int(...)` and their errors are not modelled.
- Users, permissions, login, backup and deployment scripts.
- `replace_section` imports: the mode is disabled in the program.
- CampaignReplay.SettingsReplayTheLog: covers runs of campaign creation and events only; the direct edits of a setting may choose other modes and do not write events.
- CampaignComments.ActiveCommentIsLastEvents: an absent comment and an empty one are not told apart.
- CampaignStore.Store.CreateCompany: line counts, dial sets and the other plain fields of a campaign are not stored.
- CampaignStore.Store.EditEventComment: the optional edit token of an event is not modelled here; editing under a token is the subject of `OptimisticLocking`.
- OptimisticLocking.NoUpdateIsLost: speaks of writes made with a token; a save without one overwrites whatever is there, as in the program.
- Edits of campaign master data and of reference tables occur in runs as steps that may change them arbitrarily, within their foreign keys.
- PriorityStore.Store.CreateProviderChange: foreign keys of the change log to providers and countries are not checked.
- PhoneLinkStore.Store.ImportPhone: how an import row becomes a status is left to the caller.
- Importer.Section.ApplyImport: the writers of tariffs and dictionaries are given by what they accept and store, plain columns of a phone are kept as one text, and an import reads the clock once; for tariffs, a retirement not yet committed when a later row fails is undone in the program but kept here.
- Importer.SecondImportChangesNothingIff: excludes tariff files, because importing over an existing tariff retires it and then refuses the row.
- Countries and prefixes that a route import creates on the way stay after a rollback; they are not part of the model.
- RouteRollback.Store.ApplyRollback: takes the uniqueness of ids and the presence of the history column as given by the schema.
- Other list pages (campaigns, tariffs, provider changes) build their conditions in the same way and would add only further mappings.
- Relay.Script.RunOnce: the optional POST of a full snapshot before the events is not modelled, nor are concurrent runs of the relay.
- PhoneMigration.Migrate: conversions and constraints of columns that do not bear on links and phone status.
- The full snapshot reads a table that does not change while it is paged.

# Verified model of rosadmin's roster pull, reconcile sweep and group provisioning

rosadmin keeps a chapter's membership records in Postgres and mirrors them into Google
groups. Three jobs do the work, and this project models all three:

- **The roster pull** stores the upstream roster in one transaction: one upsert per member
  under a savepoint, account merges folded row by row, leader rows reconciled globally,
  absent members lapsed behind a fuse.
- **The reconcile sweep** walks every group: it lists the group at Google, plans adds and
  removes, rechecks the plan against fresh records, applies it call by call, and writes down
  at the end which addresses Google took and which it refused.
- **Provisioning** names, creates and links each body's two groups behind a cap that arms
  itself.

## How the model is built

Each piece of code that works in place is a class or a method with the code's own loops and
fields, proved equal to a specification function; the properties are lemmas about those
functions. Tables are maps with the real constraints (unique keys, foreign keys with CASCADE
and SET NULL, the linked-pair check); a savepoint is a copy and a restore; SQL statements are
functions from tables to tables. Google is an oracle: every answer may depend on every call
made before it, and a log keeps each call with its answer, so that a claim about a run is a
claim about its log. A panel write during a sweep is a fresh read that may differ from the
snapshot in any way.

| files | content |
|---|---|
| `Basics`, `Database` | ids, addresses, sorting; tables, constraints, SQL statements |
| `RosterPull`, `RosterKeeps`, `RosterLeaders`, `RosterMerges`, `RosterTheorems`, `RosterPlain`, `RosterAborts`, `RosterFixpoint` | the pull, its loop invariants, its theorems |
| `Panel`, `History`, `AddsOverHistory`, `LostAdd` | the panel's writes; whole histories of pulls, panel writes and provisioning; how long an add lasts in one, and the add a pull can lose |
| `GroupSync`, `EmailStatus` | address choice, outcome vocabulary; the status record and its fuse |
| `Plan`, `PlanOrder`, `Apply`, `ApplyCalls`, `Sweep`, `SweepSteps`, `SweepTheorems`, `NoReoffer`, `Learned`, `GreenRun`, `Counts`, `GroupReports`, `AcceptOutranks` | one group's plan, its application, the whole run, its theorems |
| `Convergence`, `WholeConvergence`, `RetryDrain`, `TwoAddresses` | one group, every group, and run after run at a Google that answers definitively; members with two addresses |
| `Audience`, `AudienceOrder`, `FixedAudiences`, `EndToEnd` | who belongs in which group, and when that does not follow what Google says; from the tables to the calls made |
| `Naming`, `NamesInWords`, `NameClashes` | group names, what they read, and when two bodies share one |
| `Provision`, `ProvisionNames`, `ProvisionFailures`, `CapOverrun`, `ProvisionRuns`, `ProvisionSuccess` | creating and linking groups; what a run asks for, links and reports; what its failures stand for; a run whose count passes the cap; the cap over many runs; when a run succeeds |
| `WholeRun`, `RefusalRuns`, `WholeFixpoint` | pull, provisioning, statuses, audiences and sweep as one run; what many runs may record; the run after a clean one |

## Where the code does less than it says

- A pull can abort as a whole: exactly when two records it stores share an `st_id` and a
  leadership (`RosterAborts.PullAbortsExactly`; `RosterTheorems.RepeatedStIdAborts` is such a
  roster). The theorems about what a pull stores take distinct ids as given.
- A manual add of a folded row is lost in one case: the heir led that body before the pull, and
  its record in the roster does not name the body. `RosterTheorems.MergeConservation` and
  `Panel.PanelAddSurvivesPull` state it as an exact condition; `LostAdd.ManualAddLost` is such a
  pull.
- A group found gone after its last add is reported as failed only if an add failed or a remove
  was planned (`Apply.AbandonmentCounts`); `Apply.AbandonedYetGreen` is the green run. A run
  without failures leaves the verdicts met in an abandoned group unrecorded, and no others
  (`GreenRun.CarriedExactly`, `GreenRun.GreenRunRecords`).
- An address accepted in one group and refused in another can end recorded as refused, in two
  ways: it was on record as accepted before the run, so its acceptance is not written again over
  the refusal; or it was not, and the one write of its acceptance is lost.
  `AcceptOutranks.AcceptedAtRunsEnd` is the exact condition, `AcceptOutranks.AcceptedYetRefused`
  and `AcceptOutranks.LostAcceptLeavesRefused` are the runs.
- Past the refusal fuse a run records no retry either, so no lapsed address Google still refuses
  is ever decided again until someone intervenes (`RetryDrain.DrainCompletesExactly`, an exact
  condition, and `RetryDrain.CohortStarves`, such a cohort).
- Different bodies can be given one address; the unique link columns turn that into a failure,
  never a repoint. Two bodies share an address exactly when both can be named and show the same
  parts on their rungs (`NameClashes.AddressesCoincideExactly`): for two of one type, the same
  words while both names are written out, the same initials when neither is, and otherwise a
  name that spells out the other's short form (`NameClashes.SameTypeCoincide`).
  `NameClashes.CaseIsForgotten` and `NameClashes.InitialsAreShared` are two such pairs.
- An armed run can report more groups created than its cap. It does exactly when the groups
  Google called missing are within the cap but those it ensured at such an address are not
  (`Provision.CreationCap`), which takes two groups planned under one address and two answers
  about it: `CapOverrun.CountPassesCap` is a run that reports four at a cap of two. The
  addresses created are never more than the cap.

## Model

| member | source | states |
|---|---|---|
| `RosterPull.Pull.PullIn` | rosadmin/db/roster.py:454-536 | the transaction run in place, savepoints and all, ends with exactly the tables and report the pull's theorems speak of, and an aborted one leaves the tables as they were |
| `RosterPull.Pull.PullNext` | rosadmin/db/roster.py:483-507 | one pass of the member loop stores the record or adds it to the skipped ones, changing nothing else in that case |
| `RosterPull.Pull.StoreMember` | rosadmin/db/roster.py:371-404 | an upsert, or the merge and a second upsert, with the merge undone when the second clashes too |
| `RosterPull.Pull.MergeDuplicates` | rosadmin/db/roster.py:407-451 | every duplicate is folded into the survivor's row, or into the first duplicate re-keyed, and reported |
| `RosterPull.Pull.UpsertOne` | rosadmin/db/roster.py:310-359 | a clash leaves tables, pair list and body cache untouched; otherwise the row is stored and its leads are paired with their bodies |
| `RosterPull.PlanMerge` | rosadmin/db/roster.py:431-437 | the target of a merge carries the survivor's `st_id`, every duplicate is folded or is the target, and nothing else is touched |
| `RosterLeaders.SkipExactly` | rosadmin/db/roster.py:371-404 | a record is skipped if and only if another rostered row has its email or the Discord id it carries, or any other row does while merging is off; a skip changes only the list of skips |
| `RosterLeaders.StoredRows` | rosadmin/db/roster.py:407-451 | storing a record never touches another row the roster names |
| `RosterLeaders.NameLeadsNamed` | rosadmin/db/roster.py:342-358 | a record's leads add distinct pairs for its own row, exactly one for each body named |
| `RosterLeaders.LoopTracks` | rosadmin/db/roster.py:483-507 | the whole member loop keeps the stored rows distinct and as stored, the cache right, and the pairs distinct, exact and never dangling |
| `RosterKeeps.FoldKeeps` | rosadmin/db/roster.py:96-117 | one fold keeps every earlier row accounted for: itself or its heir, with its ban, its manual adds and its attributions |
| `RosterKeeps.LoopKeeps` | rosadmin/db/roster.py:483-507 | so does any number of merges and upserts |
| `RosterMerges.LoopAccounts` | rosadmin/db/roster.py:444-451 | the merge report names each folded or re-keyed row once, with where it went, and no such row goes unreported |
| `RosterTheorems.PullCommits` | rosadmin/db/roster.py:509-515 | with distinct `st_id`s the leader rows never repeat a key or miss a foreign key, so the pull always commits |
| `RosterAborts.PullAbortsExactly` | rosadmin/db/roster.py:483-515 | a pull aborts if and only if two records it stored share an `st_id` and a leadership, and then for a repeated leader pair, never a dangling one |
| `RosterAborts.DistinctLeadsCommit` | rosadmin/db/roster.py:483-515 | a roster in which no two records share both can be pulled into any database |
| `RosterTheorems.RepeatedStIdAborts` | rosadmin/db/roster.py:128-134 | a roster that repeats an `st_id` with a leadership aborts the whole pull |
| `RosterTheorems.StoredRowsSurvive` | rosadmin/db/roster.py:483-507 | every record is stored or skipped, and the stored rows are distinct and at commit carry the record in all ten columns, the assessment by its four cases |
| `RosterPlain.RosteredRowsSay` | rosadmin/db/roster.py:41-62 | after any commit, whatever the roster repeats, a row with a record's `st_id` says in every column what a record with it says, unless that `st_id` was skipped |
| `RosterPlain.UnrosteredRowsStand` | rosadmin/db/roster.py:160-171 | a row no record names and no merge took keeps every column but its standing, which lapses if and only if the fuse is quiet |
| `RosterPlain.MergesShareContact` | rosadmin/db/roster.py:81-90 | only a row with a record's own email or Discord id is merged into that record's, and a rehearsal merges none |
| `RosterPlain.MergesByStId` | rosadmin/db/roster.py:421-451 | a merge takes and reports its duplicates by `st_id`, and the first stands in for a survivor without a row |
| `RosterPlain.ReportCounts` | rosadmin/db/roster.py:527-536 | the report counts the records stored, the distinct bodies they lead and the leader rows they hold |
| `RosterTheorems.LeaderExactness` | rosadmin/db/roster.py:128-157 | after a pull a stored member leads exactly the bodies their record names |
| `RosterTheorems.OtherRowsStand` | rosadmin/db/roster.py:138-157 | rows of members not stored are untouched, and a member row of anyone not folded stays or is promoted in place exactly when the records name it |
| `RosterTheorems.MergeConservation` | rosadmin/db/roster.py:96-117 | over a whole pull bans follow the heir and none appears, attributions are never lost, and a folded row's manual adds are held by its heir except exactly where that was a stale leader row |
| `LostAdd.ManualAddLost` | rosadmin/db/roster.py:96-157 | a pull of one record that commits, merges an account and loses its manual add |
| `RosterTheorems.MergesReported` | rosadmin/db/roster.py:444-451 | the report's merges are the unrostered rows that were folded or taken over, each once |
| `RosterTheorems.LapseConservation` | rosadmin/db/roster.py:473-525 | with the fuse quiet, the good-standing rows missing from the roster each lapse or are merged, are no more than five or no more than a tenth of all in good standing rounded up, and none is left in good standing |
| `RosterTheorems.FuseTripsExactly` | rosadmin/db/roster.py:473-481 | the fuse trips if and only if more than five good-standing rows are missing and they are more than a tenth of all in good standing, rounded up |
| `RosterTheorems.FuseRefuses` | rosadmin/db/roster.py:477-521 | with the fuse tripped no absent row changes and none is folded, re-keyed or deleted |
| `RosterFixpoint.PullKeepsValid` | rosadmin/migrations/create_membership_tables.sql:11-34 | a committed pull keeps every table constraint |
| `RosterFixpoint.SettledIsFixed` | rosadmin/db/roster.py:454-536 | a pull over tables that already say what the roster says changes nothing |
| `RosterFixpoint.PullFixpoint` | rosadmin/db/roster.py:454-536 | a pull that skipped no one and kept its fuse is final: pulling the same roster again leaves every table identical, merges nothing and lapses no one |
| `Panel.Store.ClaimAndAddMember` | rosadmin/db/mutations.py:88-113 | the panel's add in place, all its answers |
| `Panel.Store.ClaimAndRemoveMember` | rosadmin/db/mutations.py:116-135 | the panel's removal in place, all its answers |
| `Panel.AddWritesExactly` | rosadmin/db/mutations.py:88-113 | each answer of an add by what the tables hold; only an insert writes, and one row: a member's, by the adder, at that moment |
| `Panel.RemoveTakesExactly` | rosadmin/db/mutations.py:116-135 | each answer of a removal; only a member's row goes, and nothing else |
| `Panel.PanelLeavesLeaders` | rosadmin/db/mutations.py:25-60 | the panel never makes, changes or removes a leader row, and says so exactly when asked to remove one |
| `Panel.AddThenRemove` | rosadmin/db/mutations.py:88-135 | a removal undoes an add |
| `Panel.PanelAddSurvivesPull` | rosadmin/migrations/add_mutation_columns.sql:13-21 | a panel add outlasts any pull, on the row or its heir, if and only if the heir's own row there was not a stale leader row |
| `History.BansOutlastHistory` | rosadmin/migrations/create_member_bans.sql:3-17 | after any history of pulls, panel writes and provisioning the banned rows are exactly the heirs of the rows banned before it |
| `History.LinksOutlastHistory` | rosadmin/reconcile.py:234-242 | no history repoints or changes a linked body |
| `AddsOverHistory.AddOutlastsHistoryExactly` | rosadmin/db/roster.py:96-157 | a member row outlasts a history under its heir if and only if no step removes it by hand, promotes its holder, or folds it into a row that led the body and leads it no longer |
| `GroupSync.CandidatesAre` | rosadmin/group_sync.py:121-128 | the candidates are distinct addresses of the member, the primary always among them, and only a gmail alternate comes before it |
| `Basics.EndsExactly` | rosadmin/group_sync.py:109-126 | the test for a domain holds of exactly the addresses that some head and the domain make |
| `GroupSync.CandidatesExactly` | rosadmin/group_sync.py:97-128 | an alternate counts if it is another address and not at example.com, before the primary if at gmail.com and after it if not; an example primary never redirects |
| `GroupSync.SyncTargetIsBest` | rosadmin/group_sync.py:97-118 | the target is the candidate no other beats: accepted before never refused before refused longest ago, the first on a tie |
| `GroupSync.LiveTargetOnlyIfAllLive` | rosadmin/group_sync.py:97-118 | the target has a live refusal if and only if every candidate has |
| `GroupSync.AcceptedTargetIsKept` | rosadmin/group_sync.py:97-118 | recording the target accepted never moves the member |
| `GroupSync.RefusedTargetRotates` | rosadmin/group_sync.py:97-118 | recording the target refused moves the member if and only if they have another candidate |
| `GroupSync.VerdictsComeFromGoogle` | rosadmin/group_sync.py:341-407 | a verdict about an address comes from a real add answered in one of two exact ways and from nothing else |
| `GroupSync.OutcomeByAnswer` | rosadmin/group_sync.py:341-407 | every outcome of an add and of a removal by gate, rehearsal, status and reason |
| `GroupSync.OutcomeKinds` | rosadmin/group_sync.py:131-170 | which outcomes are verdicts, which leave the member in, and which made no call |
| `EmailStatus.EmailStatusesOf` | rosadmin/db/google_email_status.py:67-90 | the three collections are the same whatever order the rows come in |
| `EmailStatus.StatusesExactly` | rosadmin/db/google_email_status.py:49-90 | what a read makes of each row: accepted, refused and when, live for less than ninety days, lapsed from then on |
| `EmailStatus.Store.CommitRefusals` | rosadmin/db/google_email_status.py:165-199 | the batch is counted, fused or written one by one with any write failing, and the marker set, as the run theorems assume |
| `EmailStatus.CommitExactly` | rosadmin/db/google_email_status.py:165-199 | a rehearsal writes nothing, an armed run refuses a batch with more than 25 news, any other writes each refusal that lands; the marker is set if and only if it was or something was recorded |
| `EmailStatus.Store.RememberAccepted` | rosadmin/db/google_email_status.py:100-113 | the accepted addresses whose write landed are recorded, whatever their order |
| `EmailStatus.ChangedBound` | rosadmin/db/google_email_status.py:192-195 | no more rows change than writes are reported recorded |
| `Plan.PlanGroup` | rosadmin/reconcile.py:125-176 | the planning loop computes the plan the lemmas below describe |
| `Plan.PlanPartitionsDesired` | rosadmin/reconcile.py:142-158 | each desired address Google lacks is offered once or withheld, never both; withheld exactly for a live refusal or for want of a retry slot; slots go to the lapsed ones offered |
| `PlanOrder.RetriesGoFirst` | rosadmin/reconcile.py:142-158 | a plan takes addresses in alphabetical order, and its retry slots go to the first lapsed ones missing |
| `PlanOrder.RemovesAreListed` | rosadmin/reconcile.py:160-176 | a plan whose fuse holds removes every unwanted entry, once each and in the order Google lists them |
| `Plan.PlanRemovesSafely` | rosadmin/reconcile.py:159-176 | without permission the fuse trips if and only if r > 5 and 10(r - 1) >= n, for r plain undesired entries among n; then all are refused, otherwise each is removed, and nothing else is |
| `Plan.StillDistinct` | rosadmin/reconcile.py:666-683 | the recheck keeps the offers distinct |
| `Plan.RecheckedExactly` | rosadmin/reconcile.py:666-683 | the recheck keeps of each list exactly what the fresh records bear out |
| `Plan.RecheckUnchanged` | rosadmin/reconcile.py:666-683 | with unchanged records the recheck changes no plan |
| `Apply.EveryExitAccounts` | rosadmin/reconcile.py:727-881 | on the finished and both abandoned exits the settled and the failed changes are the planned ones; on the vanished exit the failures are the planned removes, at least one |
| `Apply.AbandonmentCounts` | rosadmin/reconcile.py:838-881 | a group gone mid-adds fails at least one add and every remove; one gone after its adds fails exactly its failed adds and its removes, and is red if and only if there are any |
| `Apply.AbandonedYetGreen` | rosadmin/reconcile.py:776-779 | a group abandoned after its adds that reports no failure |
| `Apply.VerdictDiscipline` | rosadmin/reconcile.py:741-780 | every refusal carried out is an answer to an offer, a 404 only with the group seen present after the last add and before the first remove; an abandoned group carries out none and removes no one |
| `ApplyCalls.ApplyCallsExactly` | rosadmin/reconcile.py:727-835 | an apply's calls in order: an offer for each add, a look at the group right after the first 404 and again after the last offer if that was believed, a removal for each remove, and a last look exactly when all removals found the member gone and nothing was applied; and how each ends |
| `Counts.ReportCountsCalls` | rosadmin/reconcile.py:796-881 | a group's reported numbers, vanished ones included, are the numbers of Google's answers in its calls, and a vanished group is one where nothing applied, every removal found the member gone and Google's last word was that the group is |
| `GroupReports.OutcomeOfPlan` | rosadmin/reconcile.py:811-881 | however an apply ends its outcome names the group and carries the plan's sizes and refused removals |
| `GroupReports.EveryGroupIsReported` | rosadmin/reconcile.py:578-647 | a run reports every group once and in order: an unreadable list as one failure and nothing else, any other with as many refused removals as its fuse stopped |
| `GroupReports.RunFailsExactly` | rosadmin/reconcile.py:453-461 | a run has failures if and only if provisioning failed, a refusal was refused or lost, or some group failed or refused something |
| `NoReoffer.ApplyCarriesVerdicts` | rosadmin/reconcile.py:741-780 | every verdict an apply meets - no account, or a 404 with the group seen there - is withheld from the groups to come, and an applied group carries each out, an abandoned one none |
| `Sweep.Run.OfferAdds` | rosadmin/reconcile.py:738-772 | the adds loop in place, its early return included |
| `Sweep.Run.RemoveEach` | rosadmin/reconcile.py:782-795 | the removes loop in place |
| `Sweep.Run.ApplyPlan` | rosadmin/reconcile.py:727-835 | one plan applied in place, through all four exits |
| `Sweep.Run.SweepGroup` | rosadmin/reconcile.py:578-647 | one pass of the group loop in place: list, plan, spend retries, recheck, apply |
| `Sweep.Run.SweepLocked` | rosadmin/reconcile.py:565-663 | the group loop and the writes that end the run, in place |
| `SweepSteps.RecheckedRight` | rosadmin/reconcile.py:632-636 | after the recheck every offer is wanted by both reads, every removal by neither, and the budget still holds |
| `SweepSteps.RecheckedInFull` | rosadmin/reconcile.py:632-636 | whatever was planned, what is applied and reported are exactly the offers and exclusions the fresh read still wants and the removals it still does not |
| `SweepSteps.SweptGroupStep` | rosadmin/reconcile.py:578-647 | all that one group adds to a run, for any Google and any fresh records |
| `SweepTheorems.RunKeepsInv` | rosadmin/reconcile.py:578-647 | every run invariant holds at the end of every run |
| `SweepTheorems.RetryBudget` | rosadmin/reconcile.py:568-620 | over a whole run at most 25 distinct lapsed addresses are offered, the slots never go negative, and no live-refused address is offered |
| `SweepTheorems.RefusalsMetOnce` | rosadmin/reconcile.py:560-573 | a run's refusals are for distinct addresses, each Google's answer to that address's last offer in any group, and each 404 is certified |
| `NoReoffer.VerdictsAreAskedOnce` | rosadmin/reconcile.py:560-573 | an address with a verdict - no account, or a 404 with the group seen there - is offered to no group again in the run, even when the group that asked was abandoned and its refusals dropped |
| `NoReoffer.UnmirrorableExactly` | rosadmin/reconcile.py:741-772 | what a run withholds from later groups is exactly the live refusals it began with and the verdicts it met |
| `Learned.AcceptedIsWhatGoogleTook` | rosadmin/reconcile.py:753-754 | the addresses a run remembers as accepted are exactly those Google took in any of its groups |
| `SweepTheorems.EveryCallJustified` | rosadmin/reconcile.py:578-647 | every offer and removal of a run is justified by its group's listing and by both reads of the records, and without permission no group loses r of n entries with r > 5 and 10(r - 1) >= n |
| `SweepTheorems.WholeRunWriteBound` | rosadmin/db/google_email_status.py:165-199 | a bootstrapped run writes at most 50 refusals, at most 25 of them retries, and none at all past the ceiling of new ones |
| `SweepTheorems.GreenRunSettles` | rosadmin/reconcile.py:453-461 | a run without failures settled every planned change in every group and recorded every refusal it carried out |
| `GreenRun.VerdictsAreCarried` | rosadmin/reconcile.py:741-780 | over a whole run every verdict is carried out, with its address and its group, unless that group was abandoned |
| `GreenRun.CarriedExactly` | rosadmin/reconcile.py:741-780 | over a whole run a refusal of an address with a verdict is held to be written if and only if the group that met the verdict was not abandoned, and it is that very answer |
| `GreenRun.GreenRunRecords` | rosadmin/reconcile.py:453-461 | the final record, after a run without failures, of any address with a verdict: accepted now, refused now as Google answered, or as before; it is refused now exactly when its group was not abandoned and no acceptance was written over it |
| `SweepTheorems.RowAtRunsEnd` | rosadmin/reconcile.py:653-662 | the final record of any address: accepted now if it was taken, news, and the write landed; else refused now if the fuse was quiet and a refusal of it landed, with the status of that refusal; else as before |
| `SweepTheorems.AcceptOutranksRefuse` | rosadmin/reconcile.py:653-662 | an address some group took ends recorded accepted if and only if: known accepted at the start, no refusal of it was written; otherwise, the write of its acceptance landed |
| `AcceptOutranks.AcceptedAtRunsEnd` | rosadmin/reconcile.py:653-662 | the same of whole runs, whatever Google answers, whichever writes land and whether or not the fuse trips |
| `AcceptOutranks.AcceptedYetRefused` | rosadmin/reconcile.py:658-662 | a run of two groups that ends with an accepted address recorded as refused |
| `AcceptOutranks.LostAcceptLeavesRefused` | rosadmin/reconcile.py:658-662 | the same run of a member new to the record, the write of the acceptance lost |
| `Audience.Builder.Build` | rosadmin/db/reconcile.py:130-145 | the shared dict filled in place from the four fetches, in whatever order they came |
| `Audience.Builder.AdmitRow` | rosadmin/db/reconcile.py:94-109 | one row admitted in place, or dropped |
| `Audience.DesiredForGroup` | rosadmin/db/reconcile.py:173-201 | the one-group dict, row by row |
| `Audience.AudienceExactness` | rosadmin/db/reconcile.py:130-170 | the map lists the main group and every linked group and no other, and a group's keys are exactly the usable addresses of the unbanned good-standing members it is for: all in the main group, a body's leaders at its leader column's address, its members at its member column's |
| `AudienceOrder.LastQueryNames` | rosadmin/db/reconcile.py:130-145 | an address names one of its holders in the main group, and in any other a member of a body before a leader of one |
| `Audience.OneGroupReadRefines` | rosadmin/db/reconcile.py:173-201 | on one database state the one-group read has the map's keys for every group, told by the same columns, and its values when no two wanted members share an address |
| `Audience.OneGroupReadExactly` | rosadmin/db/reconcile.py:173-201 | over all orders of its rows the one-group read gives the map's values for a group if and only if no two members wanted there share an address |
| `FixedAudiences.TargetStaysExactly` | rosadmin/group_sync.py:97-128 | a member's target is the same whatever Google says if and only if they have one candidate |
| `FixedAudiences.AudiencesStay` | rosadmin/db/reconcile.py:130-170 | when every eligible member has one address the audience map is the same whatever Google has said |
| `EndToEnd.RunFollowsRecords` | rosadmin/reconcile.py:557-647 | from the tables to the calls: an address is offered only for an unbanned good-standing member the records put in that group, and none of such a member is removed |
| `EndToEnd.BannedAreNeverOffered` | rosadmin/migrations/create_member_bans.sql:3-11 | after any history since the ban, no address is offered on behalf of the row a banned member has become |
| `WholeRun.SweepLocked` | rosadmin/reconcile.py:520-663 | the whole run in place: pull, provisioning, statuses, audiences, sweep, with its four ways to end and the reports of all its stages |
| `WholeRun.UnsafePullStops` | rosadmin/reconcile.py:537-541 | a run stops before Google and before provisioning if and only if its pull commits and the good-standing members missing from the roster are more than five and more than a tenth of all, rounded up; it then made no call, recorded no status and left every absent row as it was |
| `WholeRun.SweptKeepsValid` | rosadmin/migrations/create_membership_tables.sql:11-34 | a run keeps every table constraint, however it ends |
| `WholeRun.OffersFollowTheRoster` | rosadmin/reconcile.py:535-647 | from the roster to Google: an address is offered only for a member whose own record in the roster given is in good standing or was skipped, not banned before the run, whom the tables as just pulled and provisioned put in that group by its column; no wanted member is removed |
| `WholeRun.GreenRunIsDone` | rosadmin/reconcile.py:453-461 | a real run without failures leaves every body linked if it provisions and every change planned in every group settled |
| `WholeRun.RehearsalRecordsNothing` | rosadmin/reconcile.py:520-663 | a rehearsal links no body, arms nothing and records no answer, however it ends |
| `WholeRun.UnlistedRunStops` | rosadmin/reconcile.py:564-576 | a run reports whether it could list the groups; if not it makes no membership call, reports no group and no refusal and leaves the recorded statuses |
| `RefusalRuns.MarkerRemembers` | rosadmin/db/google_email_status.py:194-195 | over any sequence of whole runs the refusal-learning marker is set if and only if it was at first or some real run has recorded a refusal |
| `RefusalRuns.CeilingEverAfter` | rosadmin/db/google_email_status.py:165-199 | once a run has recorded anything no later run puts more than 25 new refusals on record or records more than 50 |
| `RefusalRuns.AtMostOneLearnsMany` | rosadmin/db/google_email_status.py:165-199 | at most one run ever puts more than 25 new refusals on record: the first that records any, and only if the marker was not set |
| `WholeFixpoint.CleanRunIsFinal` | rosadmin/reconcile.py:520-663 | at a Google that answers definitively the run after a clean one, of the same roster, leaves tables, marker and statuses identical, makes no membership call, and reports no failure |
| `WholeFixpoint.DrainRunIsSwept` | rosadmin/reconcile.py:557-663 | when every member has one address each run of the retry drain is a whole run over the tables, reading its own statuses |
| `Convergence.SweepDecides` | rosadmin/reconcile.py:727-835 | at a Google that answers definitively one sweep decides every planned change |
| `Convergence.SweptConverged` | rosadmin/reconcile.py:125-176 | the group is then the protected entries and the desired addresses not withheld or refused, no more and no less |
| `Convergence.ReplanIsIdle` | rosadmin/reconcile.py:125-176 | replanned with what was learned and no retries left, nothing is to be added or removed |
| `Convergence.OneSweepConverges` | rosadmin/reconcile.py:578-647 | all three of one sweep of one group, from any state of the run |
| `WholeConvergence.OneRunOffers` | rosadmin/reconcile.py:565-647 | whatever its removal fuses do, one run at such a Google brings every group exactly the desired addresses not refused or withheld, retries only missing addresses, leaves no slot unspent while one waits, and holds exactly the verdicts to come |
| `WholeConvergence.OneRunConverges` | rosadmin/reconcile.py:578-647 | at such a Google one run brings every group at once to its protected entries and the desired addresses not refused or withheld, and fails at nothing |
| `WholeConvergence.NextRunIsIdle` | rosadmin/reconcile.py:565-663 | if the retry slots sufficed and the refusal fuse stayed quiet, the next run lists every group, offers and removes nothing, and has nothing to record and no failure |
| `RetryDrain.FuseCountsUnlearned` | rosadmin/db/google_email_status.py:176-188 | at a Google that answers definitively the fuse trips on exactly the desired addresses, over all groups, that it will refuse and has not refused yet |
| `RetryDrain.LapsedCohortDrains` | rosadmin/db/google_email_status.py:27-45 | within one retry window every run takes 25 more lapsed addresses, over all groups, off the undecided ones, and a decided one stays decided |
| `RetryDrain.DrainCompletes` | rosadmin/db/google_email_status.py:27-45 | ceil(n/25) runs decide all n of them afresh |
| `RetryDrain.TrippedDrainStarves` | rosadmin/db/google_email_status.py:183-188 | past the ceiling no number of runs decides a lapsed address Google still refuses |
| `RetryDrain.DrainCompletesExactly` | rosadmin/db/google_email_status.py:165-199 | given enough runs, the still-refused lapsed addresses are all decided afresh if and only if there are none or the fuse is quiet |
| `RetryDrain.CohortStarves` | rosadmin/db/google_email_status.py:183-188 | a cohort of 26 new refusals and one lapsed address that no number of runs in its window decides |
| `TwoAddresses.TargetArrives` | rosadmin/group_sync.py:97-118 | after a run a member one of whose addresses Google takes is mirrored under one it takes, or under the same address as before, offered nowhere by the run |
| `TwoAddresses.TwoRunsBringThemIn` | rosadmin/reconcile.py:565-663 | at such a Google two runs, with quiet refusal fuses and slots enough, bring a member one of whose addresses it takes into every group the records put them in |
| `Naming.SlugIsJoinedWords` | rosadmin/group_naming.py:52-57 | a slug is the words of the cleaned text joined by single dashes |
| `Naming.ShortIsWordInitials` | rosadmin/group_naming.py:96-98 | its short form is those words' first letters |
| `Naming.RungsShrink` | rosadmin/group_naming.py:112-161 | no rung of either ladder is longer than the one before |
| `NamesInWords.WordsDistribute` | rosadmin/group_naming.py:52-57 | a text's words are its runs without white space, in order |
| `NamesInWords.DepunctuateDistributes` | rosadmin/group_naming.py:52-57 | a slug keeps the letters, digits and white space of the lower-cased text, in order |
| `NamesInWords.LabelInitialsDistribute` | rosadmin/group_naming.py:68-75 | a label's initials are the upper-cased first letters of the words that are no stop words |
| `NamesInWords.EmailInWords` | rosadmin/group_naming.py:112-132 | a group's address on each of its three rungs, in words and initials, ending in -leaders or -editors by its kind, then the domain |
| `NamesInWords.LabelInWords` | rosadmin/group_naming.py:147-161 | a group's label on each of its three rungs, ending in Leaders or Editors by its kind |
| `NamesInWords.FountainsAddresses` | rosadmin/group_naming.py:108-109 | the two addresses of one body |
| `NamesInWords.FountainsLabels` | rosadmin/group_naming.py:143-144 | its two labels |
| `Naming.NamingFailsExactly` | rosadmin/group_naming.py:112-161 | naming fails if and only if the last rung overflows, and otherwise gives the longest rung that fits |
| `Naming.KindsNeverCollide` | rosadmin/migrations/create_bootstrap_state.sql:13-18 | a leaders address never equals an editors address, whatever the two bodies |
| `NameClashes.AddressesCoincideExactly` | rosadmin/group_naming.py:112-129 | two bodies, of one type or of two, share an address if and only if both can be named and show the same parts on the rungs they fit |
| `NameClashes.SameTypeCoincide` | rosadmin/group_naming.py:112-129 | two bodies of one type share an address if and only if their words agree on the first two rungs, their initials on the third, or across rungs one name spells out the short form of the other |
| `NameClashes.CaseIsForgotten` | rosadmin/group_naming.py:52-57 | two names that differ in case and are given one address |
| `NameClashes.InitialsAreShared` | rosadmin/group_naming.py:96-98 | two long names with different words and one address |
| `Provision.Provisioning.Plan` | rosadmin/reconcile.py:245-269 | the pending groups in order, un-nameable bodies counted and passed over |
| `Provision.Provisioning.LinkBodies` | rosadmin/reconcile.py:370-395 | the link writes in place, each clash or missing side one failure |
| `Provision.Provisioning.Run` | rosadmin/reconcile.py:291-367 | a provisioning run in place: bodies, marker, calls and report |
| `ProvisionNames.CallsAreNamed` | rosadmin/reconcile.py:291-347 | a run asks about every pending group once, then ensures each under the main group's name or the address and label an unlinked body's name gives for the kind |
| `ProvisionNames.LinkedAsNamed` | rosadmin/db/directory.py:230-248 | a body a run links holds its -leaders address in the leader column and its -editors one in the member column |
| `ProvisionNames.ReportedExactly` | rosadmin/reconcile.py:291-367 | the report counts the groups adopted, those of them not as they should be, the bodies linked before and the groups refused |
| `ProvisionFailures.FailuresExactly` | rosadmin/reconcile.py:291-395 | a run reports one failure for each body it could not name and, unless refused over its cap, one for each group Google would not ensure and one for each body with an ensured group left unlinked |
| `ProvisionNames.DivergesExactly` | rosadmin/google_group.py:73-100 | an adopted group diverges if and only if one of fifteen settings or the two labels is not as given |
| `ProvisionNames.BodiesInOrder` | rosadmin/db/directory.py:139-147 | bodies are taken by type, and by name within one |
| `Provision.CreatedExactly` | rosadmin/reconcile.py:291-347 | the count of groups created is that of the groups ensured at an address Google called missing, or none if the cap refuses |
| `Provision.CreationCap` | rosadmin/reconcile.py:280-335 | an armed run with more groups missing than the cap makes no `ensure` call and changes nothing; otherwise the addresses to create are at most the cap, and the count passes it if and only if the groups ensured at a missing address do |
| `Provision.CapPassedExactly` | rosadmin/reconcile.py:280-335 | at a Google that ensures every group the count passes the cap if and only if the missing groups do not, but do with those whose address Google also called missing |
| `CapOverrun.CountPassesCap` | rosadmin/reconcile.py:291-335 | an armed run of two bodies with one pair of addresses that reports four groups created at a cap of two, two missing |
| `ProvisionRuns.MarkerRemembers` | rosadmin/reconcile.py:353-359 | over any sequence of runs the marker is set if and only if it was at first or some real run has created a group |
| `ProvisionRuns.CappedEverAfter` | rosadmin/reconcile.py:280-288 | once a real run has created something the cap binds every later run, rehearsals too |
| `ProvisionRuns.NoneEnsuredPastCap` | rosadmin/reconcile.py:280-288 | after a run that created something no later run makes an `ensure` call while more groups are missing than the cap |
| `ProvisionRuns.ExceedsExactly` | rosadmin/reconcile.py:280-288 | a real run exceeds its cap if and only if the groups it ensures at missing addresses do, and those missing do not or nothing has armed the cap |
| `ProvisionRuns.AtMostOneExceeds` | rosadmin/reconcile.py:280-288 | at most one real run ever creates more than its cap: the first that creates any, and only if the marker was not set before |
| `Provision.LinksNeverRepointed` | rosadmin/db/directory.py:230-248 | a run changes only unlinked bodies, only to a whole pair no other body holds, never a name or type, and a rehearsal none |
| `Provision.SuccessLinksAll` | rosadmin/reconcile.py:291-395 | a real run without failures leaves every body linked |
| `ProvisionSuccess.SuccessExactly` | rosadmin/reconcile.py:291-395 | at any Google, a run goes through if and only if every question is answered; and a real one then has no failures if and only if the cap lets it through, every unlinked body can be named, every group is ensured, and no such body would share an address with another body |
| `Provision.SuccessIsFinal` | rosadmin/reconcile.py:291-395 | after it, while Google keeps the main group, the next run creates and links nothing |

## Left out

- ProvisionRuns.AtMostOneExceeds: runs at a Google that answers alike when asked twice about one address; `ProvisionRuns.ExceedsExactly` holds for any.
- WholeFixpoint.CleanRunIsFinal: members with one address each, every status write landing, and no refusal lapsing between the runs.
- TwoAddresses.TwoRunsBringThemIn: records unchanged and every status write landing; no refusal of the member's addresses live at first.
- WholeConvergence.NextRunIsIdle: records unchanged between the two runs, every status write landing, and no refusal lapsing between them.
- RetryDrain.FuseCountsUnlearned: a run whose records do not change, at a Google that answers definitively.
- RetryDrain.LapsedCohortDrains: desired addresses that stay the same from run to run - as they do for tables in which every member has one address, `WholeFixpoint.DrainRunIsSwept` - and every status write landing.
- RetryDrain.DrainCompletes: desired addresses that stay the same from run to run - as they do for tables in which every member has one address, `WholeFixpoint.DrainRunIsSwept` - and every status write landing.
- RetryDrain.TrippedDrainStarves: desired addresses that stay the same from run to run - as they do for tables in which every member has one address, `WholeFixpoint.DrainRunIsSwept` - and every status write landing.
- RetryDrain.DrainCompletesExactly: desired addresses that stay the same from run to run - as they do for tables in which every member has one address, `WholeFixpoint.DrainRunIsSwept` - and every status write landing.
- WholeRun.SweepLocked: the housekeeping prune before the pull, and the log lines written when provisioning or the lister is off.
- The order of rows from the database: `ORDER BY` sorts text by code point, not by a collation.
- Unicode casing and white space: `lower()` and `casefold()` are one ASCII lower-casing, `isalpha`, `\s` and `split` their ASCII parts.
- Random UUIDs: ids come from a counter that never repeats.
- Clocks: one run reads one `now`.
- Postgres isolation, advisory locks and serialization retries: one pull and one sweep at a time; a panel write meets a sweep only between its snapshot and a recheck.
- Failures of the database itself other than a status write, a unique clash, a foreign key or the linked-pair check.
- The Google API clients, their retries, pacing and propagation polling: only the outcome vocabulary and the entries' shape matter here.
- The Solidarity Tech client and decoder: the roster is a list of records.
- Rehearsed sweeps beyond the gates, the fuse and the writes.
- The anomaly list and the audit records: reported, never read back.
- Surrogate ids of membership rows, and tables that hang off members by CASCADE but that no job here reads.
- The manual link command, sessions, sign-on, rate limits, the web API and the frontend, deployment: separate from the three jobs.

# Tournament, completion and content rules, verified

A Dafny model of the parts of the API whose rules are spread over many SQL statements that have to
agree: the tournament drain and its outbox, the verdicts on completions, the leaderboard, the skill
tiers, the ordered content lists, the XP ledger and XP tiers, the e-mail rate limit, the tags, and
the map-name seed file. `dafny verify dfyconfig.toml` checks everything.

Code that changes tables step by step is a class whose methods are proved against functions on the
table contents; what the rules promise is then proved about those functions, over every input and
every run.

## How the files fit together

* `TournamentTables` holds the four tournament tables, the statements of the repository and of the
  boundary function as functions, and the class that carries them out.
* `TournamentPollers` is the concurrent system. A poller's transaction holds its `FOR UPDATE SKIP
  LOCKED` locks from its first read to its end; its writes are an overlay that only it sees until it
  commits; it may die at any point. Submissions, verdicts, the boundary function and the first edition
  are one transaction each. `StepKeepsInv` is the one-step theorem, `TournamentDrain` the theorems over runs.
* `PollerRun` and `TournamentOutbox` take the poller's own loops and prove that a pass, in whatever
  order the rows come, is a run of that system.
* `Completions` is `submit_completion` with the speed trigger. `CompletionVerdicts` interleaves
  submissions with verify and moderate calls, which read, write, count quests, propagate and announce,
  each committed on its own, and which may end after any of them. `CompletionService` carries the calls
  out. `RefinesDrain` shows that all of it changes the tournament tables only by steps of `TournamentPollers`.
* `Leaderboard` ranks the runs of one cycle; `Standings` ties it to the running system.
* `SkillTiers`, `ContentOrder`, `XpLedger`, `XpTiers`, `RateLimit`, `Tags` and `SeedBlock` stand alone.

## Where a promise fails, and when exactly it holds

* **`mark_transition_published` is True once per row.** Not when a poller dies between the mark and
  the commit: the next poller gets True again (`MarkedTwiceAfterACrash`). It holds for a published row
  if and only if no marking of it was rolled back (`AnsweredOnceIffNoRollback`).
* **At most one pending completion per user and map.** On a map with an active cycle a partial run
  slower than the user's pending full run is accepted beside it (`SecondPendingHappens`). A submission
  keeps the slot if and only if the guard `SecondPending` is false (`SlotKeptIff`); on maps without an
  active cycle it always does (`RunKeepsSlot`). A moderation can refill the slot too: `ModerateKeepsSlotIff`.
* **Quest updates follow the verified flag.** Two overlapping verify calls on one completion both
  count (`OverlapCountsTwice`); and with no overlap at all a call that ends between its write and its
  quests leaves a verified row uncounted that no later verify repairs (`EarlyEndNeverCounted`). Step by
  step: a write keeps the books if and only if the flag it read is still in the row
  (`WriteBalancedIff`), and a call that ends keeps them if and only if it has not just written a changed
  flag (`DieBalancedIff`). Over every run: they are right if and only if the stale reads and the
  missed quest calls cancel (`RunBalancedIff`).
* **A tournament row that left pending carries its completion's verdict.** Overlapping opposite calls
  may or may not break this, depending on who propagates last (`OverlapEitherWay`); a call that ends
  before it propagates breaks it with no overlap (`EarlyEndDisagrees`). A propagation leaves the rows
  agreeing if and only if its verdict is still the row's (`PropagateAgreesIff`). Over every run the two
  rows agree if and only if nothing was propagated or the last verdict propagated is the last one
  written (`RunAgreesIff`); as long as whoever writes goes on to propagate, if and only if the last
  propagation met its guard (`RunGuardedIff`), which calls that do not overlap always do (`RunCoherent`).
* **One verification-changed event per real change.** Exactly when no call ended between the change
  and its announcement (`PublishedAreChanges`).
* **Every ledger row was paid.** Automatic verification grants on a connection without a transaction,
  so a failure between the claim and the XP leaves a row that no replay pays (`BareFailureIsFinal`).
  A balance carries the whole ledger if and only if the unpaid rows' floors sum to zero (`LedgerTotals`).
* **Up, then down, restores the list.** Exactly unless the item was first of several, because the up
  call is a no-op there (`UpThenDown`, `DownThenUp`).
* **A main rank-up is reported for every gain past the next main tier.** Only while the 500-XP steps
  taken are not a multiple of 20, since names are compared (`MainRankUpReported`, `MainRankUpExact`).
* The docstrings say a deferred results row is drained on the next tick. The code inserts and
  drains it in one transaction, which sees its own writes; the model follows the code.

## Assumptions

* Postgres: READ COMMITTED, row locks held to the end of the transaction, identity columns never
  reused, `RETURNING` on exactly the rows changed. Where a query says `LIMIT 1` among equal rows the
  theorems hold for any choice.
* One transaction is one step, except for pollers; verify and moderate calls commit statement by
  statement. A submission's check and insert are one step, so a boundary flip between the two is not
  represented.
* A poller takes the awaiting editions in any order, not only oldest first.
* `now()` never goes back where a lemma requires it (`ClockAhead`, `ClockOrder`); a rate-limit check
  and its record share one timestamp; IP addresses are compared through `lower()` as the query does.
* Percentiles lie in [0, 1] and ascend; scores, times and multipliers are exact reals.
* `lootbox.main_tiers` and `sub_tiers` hold thresholds 0..19 and 0..4 with distinct names.
* `lower()` on ASCII letters only.

## Model

| member | source | states |
|---|---|---|
| TournamentPollers.RecordIsProcess | apps/api/services/tournament_outbox_service.py:405-467 | recording an edition's writes and executing its statements give the transaction the same view of the tables |
| TournamentPollers.StepKeepsInv | apps/api/repository/tournaments_repository.py:1595-1844 | every step of submission, verdict, boundary flip, first edition, poller begin/process/fetch/send/mark/commit/crash keeps: foreign keys, cycles in step with editions, results rows exactly for editions completed late, locks disjoint, every True mark accounted for |
| TournamentPollers.HeldIsUnpublished | apps/api/repository/tournaments_repository.py:2044-2099 | a locked, not yet marked row is unpublished for its holder and marked by nobody else, so the guarded UPDATE always hits it |
| TournamentDrain.CompletionIsDrained | apps/api/repository/tournaments_repository.py:1643-1844 | an edition is completed only by a commit, out of awaiting_results, with no pending run on any child cycle; all its cycles end completed; the results row appears in that commit exactly when the start-only card had gone out |
| TournamentDrain.ResultsComeWithCompletion | apps/api/services/tournament_outbox_service.py:293-340 | a results row is written only in the step that completes its edition |
| TournamentDrain.CompletedAtMostOnce | apps/api/repository/tournaments_repository.py:1819-1844 | over any run with any number of pollers an edition is completed at most once and its results written at most once |
| TournamentDrain.RunKeepsOneActive | apps/api/migrations/0025_verification_aware_tournament_results.sql:186-245 | every run that starts with at most one active edition keeps it so, so the one found due at a boundary is the only one |
| TournamentDrain.QueueStep | apps/api/repository/tournaments_repository.py:519-549 | once an edition has left active, its in-flight set changes only by a first verdict, which removes exactly that run |
| TournamentDrain.DrainMeasure | apps/api/repository/tournaments_repository.py:1595-1681 | over any run the in-flight count drops by the number of first verdicts, so it is empty exactly when as many have come as there were pending runs |
| TournamentDrain.OutboxSafety | apps/api/repository/tournaments_repository.py:2044-2099 | in every run from an empty database no edition or outbox row is held twice, published rows were emitted, and True answers = published + rolled back + in flight |
| TournamentDrain.EveryCardSent | apps/api/services/tournament_outbox_service.py:405-458 | in every run from an empty database an edition marked as announced had its start card sent, and one completed without the mark had its combined card sent |
| TournamentDrain.SentExactly | apps/api/services/tournament_outbox_service.py:405-467 | over any run the number of times a message went out is one if its effect is in the tables, one if an open transaction has sent it, plus the sends whose transaction was lost; a deferred results row never sends its own card |
| TournamentDrain.SentOnceWithoutCrash | apps/api/services/tournament_outbox_service.py:293-340 | without crashes no message goes out twice, and an edition whose results card went out inline has no results row |
| TournamentDrain.GridLaw | apps/api/migrations/0025_verification_aware_tournament_results.sql:215-226 | over any run whose flips are not paused the active edition ends at the first end plus the periods of all flips |
| TournamentDrain.GridOfEqualPeriods | apps/api/migrations/0025_verification_aware_tournament_results.sql:215-226 | with one period P, k flips move the boundary from E to exactly E + kP |
| TournamentDrain.DueAfterFlip | apps/api/migrations/0025_verification_aware_tournament_results.sql:186-245 | after a flip the new edition is due exactly from the old end plus the period on and nothing else is due; after a paused flip nothing is |
| TournamentDrain.BootstrapRows | apps/api/services/tournament_service.py:386-527 | the first edition row by row: active, unannounced, its cycles active, one unpublished rollover row, all else untouched |
| TournamentDrain.PublishedForGood | apps/api/repository/tournaments_repository.py:2075-2099 | published never goes back to false |
| TournamentDrain.AnsweredOnceIffNoRollback | apps/api/repository/tournaments_repository.py:2075-2099 | a published row was answered True exactly once if and only if no marking of it was rolled back |
| TournamentDrain.MarkedTwiceAfterACrash | apps/api/services/tournament_outbox_service.py:156-254 | a run in which one row is answered True twice |
| TournamentOutbox.PassIsRun | apps/api/services/tournament_outbox_service.py:156-254 | one pass, beside any number of open pollers, over the awaiting editions and unpublished rows they do not hold, in any order, sends exactly a start card for each unannounced edition with runs in flight, a results card for each unannounced one without, and an event for each row it publishes, once each and nothing else; writes exactly what a full pass must, leaves only their rows unpublished, and is a run BEGIN, editions, rows, COMMIT of the concurrent system |
| TournamentOutbox.OutboxPoller.ProcessEditionRow | apps/api/services/tournament_outbox_service.py:375-467 | which of the three branches is taken, in table fields: what is sent, which flag or status changes, and the one results row when the edition was announced and is drained, with no card |
| TournamentOutbox.OutboxPoller.ProcessAwaitingResultsEditions | apps/api/services/tournament_outbox_service.py:343-469 | handles every awaiting edition that is not locked elsewhere exactly once |
| TournamentOutbox.OutboxPoller.PublishPendingTransitions | apps/api/services/tournament_outbox_service.py:156-254 | the edition loop, then every row unpublished by then and not locked elsewhere is sent and marked, exactly once |
| TournamentTables.TournamentRepository.GetActiveCycleByMapId | apps/api/repository/tournaments_repository.py:519-549 | some active cycle of the map, None only when there is none |
| TournamentTables.TournamentRepository.SetTournamentVerified | apps/api/repository/tournaments_repository.py:1595-1641 | the row ends with the verdict, never pending; Some exactly on a real change |
| TournamentTables.TournamentRepository.CountInflightVerifications | apps/api/repository/tournaments_repository.py:1643-1681 | the number of pending runs on active or finalizing child cycles |
| TournamentTables.TournamentRepository.MarkTransitionPublished | apps/api/repository/tournaments_repository.py:2075-2099 | publishes the row; True exactly when it was unpublished |
| TournamentTables.TournamentRepository.CompleteEditionRows | apps/api/repository/tournaments_repository.py:1819-1844 | every cycle of the edition ends completed, the edition itself changes in its status only, every other cycle and edition is untouched and none appears or disappears |
| TournamentTables.FlipRows | apps/api/migrations/0025_verification_aware_tournament_results.sql:186-245 | the boundary flip row by row: the due edition awaits results, its active cycles stop, and unless paused one new edition opens at the old end plus the period with the given cycles; every other row stays |
| TournamentTables.TournamentRepository.ProcessEditionTransitions | apps/api/migrations/0025_verification_aware_tournament_results.sql:154-245 | None leaves the tables alone because nothing is due; otherwise the earliest due edition awaits its results, its active cycles stop, and unless paused the new edition is active, unannounced and ends one period after the old one, each new cycle active on its map; everything else is unchanged |
| Leaderboard.BoardCorrect | apps/api/repository/tournaments_repository.py:1899-1932 | each submitting user appears once with a best run, row i has rank i+1, and that is one plus the users with a run ahead of it |
| Leaderboard.BoardColumns | apps/api/repository/tournaments_repository.py:1899-1932 | on the columns shown: verified entries first, then those with video, then the faster; each entry shows a run of its user than which that user has none better on the three |
| Leaderboard.TiesByAge | apps/api/repository/tournaments_repository.py:1899-1932 | equal columns go to the earlier submission, then the smaller user id; within one user to the earlier submission |
| Leaderboard.BestIsUnique | apps/api/repository/tournaments_repository.py:1899-1911 | with unique (cycle, user, inserted_at) DISTINCT ON leaves no choice |
| Leaderboard.WinnerTiesWithRankOne | apps/api/repository/tournaments_repository.py:989-1003 | any winner fetch_cycles may return ties with rank 1 on verified, completion and time |
| Leaderboard.WinnerColumns | apps/api/repository/tournaments_repository.py:989-1003 | no submission of the cycle beats the winner on verified, video and time |
| Leaderboard.BoardShowsRank | apps/api/repository/tournaments_repository.py:1912-1932 | the rank shown equals one plus the users standing ahead, for every row |
| Leaderboard.VerifyMovesRanks | apps/api/repository/tournaments_repository.py:1629-1641 | verifying a run never worsens its owner's rank, never improves another's, and costs each other user at most one place |
| Leaderboard.RejectVerifiedMovesRanks | apps/api/repository/tournaments_repository.py:1629-1641 | rejecting a verified run is the mirror image: the owner cannot gain, others gain at most one place |
| Leaderboard.RejectUnverifiedKeepsBoard | apps/api/repository/tournaments_repository.py:1629-1641 | rejecting a run that was not verified leaves the whole board unchanged |
| Standings.StandingsFixed | apps/api/repository/tournaments_repository.py:1819-1932 | once an edition is no longer active, in every later run the submissions of its cycles are fixed and their standings are the old ones after exactly that run's verdicts, in order |
| Standings.BoardIsFinal | apps/api/repository/tournaments_repository.py:1819-1932 | a completed edition's board stays equal in every later run without a verdict on one of its submissions |
| Standings.ReVerifyMovesRanks | apps/api/repository/tournaments_repository.py:1595-1641 | verifying a submission in the tables moves the ranks of its cycle within the bounds above |
| SkillTiers.TierPopulations | apps/api/repository/skill_repository.py:421-457 | cuts ascend, at most ceil(p(n-1)) score strictly below cut k, at least floor(p(n-1))+1 at or below it |
| SkillTiers.TierIsMonotone | apps/api/repository/skill_repository.py:497-514 | tier grows with the score and lies in 1..m+1 for positive scores once there are boundaries |
| SkillTiers.HigherTierHigherPercentile | apps/api/repository/skill_repository.py:497-514 | a strictly higher positive tier means a strictly higher percentile |
| SkillTiers.TierGuaranteesPercentile | apps/api/repository/skill_repository.py:497-514 | reaching cut k guarantees percentile at least (floor(p_k(n-1))+1)/n |
| SkillTiers.ReadsAgree | apps/api/repository/rank_card_repository.py:478-498 | the snapshot read, the community projection and the rank card give a snapshotted user the same score, tier and percentile, and others zeroes |
| SkillTiers.RebuiltReads | apps/api/repository/community_repository.py:223-230 | the tier and percentile guarantees, for the rows read back right after a rebuild |
| SkillTiers.TierReadIff | apps/api/repository/skill_repository.py:497-514 | in all three reads: tier 0 exactly for a score not positive or without boundaries, otherwise tier at least k+2 if and only if cut k is reached, and at most the number of cuts plus one |
| SkillTiers.PercentileReadIs | apps/api/repository/skill_repository.py:497-514 | the percentile read is the share of players with a positive score who score no more |
| SkillTiers.BoundariesExistIff | apps/api/repository/skill_repository.py:421-457 | after a rebuild there is one boundary per percentile from twenty ranked players on, and none below |
| SkillTiers.CutInterpolates | apps/api/repository/skill_repository.py:421-457 | a cut between rows i and i+1 is their mean weighted by the distance |
| SkillTiers.SkillRepository.ReplaceSnapshot | apps/api/repository/skill_repository.py:188-230 | the snapshot holds each given row's score for its user and nobody else; a repeated user rolls everything back |
| SkillTiers.SkillRepository.ComputeTierBoundaries | apps/api/repository/skill_repository.py:421-457 | boundaries become percentile_cont of every configured percentile, or empty below the floor |
| SkillTiers.FieldRanksBalance | apps/api/repository/skill_repository.py:44-49 | time_pct*(n-1) + field_rank + number of tied runs = n+1 |
| SkillTiers.RanksCount | apps/api/repository/skill_repository.py:44-58 | field rank, video rank and the percentile numerator as counts of runs |
| SkillTiers.TimePctCounts | apps/api/repository/skill_repository.py:44-58 | time_pct times the other runs is the number of slower ones, and 0 for a field of one |
| SkillTiers.VideoRankWithinField | apps/api/repository/skill_repository.py:53-58 | video_rank <= field_rank, with equality exactly when no partial run is faster |
| ContentOrder.CategoryTable.CreateCategory | apps/api/repository/content_repository.py:117-150 | appends at the end keeping orders 1..n; fails exactly on a taken name and then changes nothing |
| ContentOrder.CategoryTable.DeleteCategory | apps/api/services/content_service.py:104-117 | the listing loses that item only and is renumbered 1..n; fails exactly on an unknown id |
| ContentOrder.CategoryTable.ReorderCategory | apps/api/services/content_service.py:119-159 | the listing undergoes one adjacent transposition, or nothing at an edge, and is 1..n again |
| ContentOrder.RenumberingNumbers | apps/api/repository/content_repository.py:356-379 | ROW_NUMBER over any strictly sorted orders gives exactly 1..n along the same listing |
| ContentOrder.RemovedFacts | apps/api/services/content_service.py:104-117 | deleting keeps everybody else, in the same relative order |
| ContentOrder.UpThenDown | apps/api/services/content_service.py:144-154 | up then down restores the list if and only if the item was not first of several |
| ContentOrder.DownThenUp | apps/api/services/content_service.py:144-154 | down then up restores the list if and only if the item was not last of several |
| ContentOrder.Reachable | apps/api/services/content_service.py:119-159 | every arrangement is reached by as many reorder calls as it has inversions |
| ContentOrder.NoFewerCalls | apps/api/services/content_service.py:119-159 | and by no fewer |
| XpLedger.LedgerRun | apps/api/services/tournament_reward_service.py:65-135 | over every run of transactions, bare grants that may fail after the claim, replays, rollbacks, outside grants and multiplier changes: one grant per (cycle, user, reason), every balance accounted for, notices exactly for the paid ledger rows, nothing else published |
| XpLedger.LedgerTotals | apps/api/repository/lootbox_repository.py:539-584 | after any run a balance is outside XP plus the sum of floor(amount*multiplier) less the floors of the unpaid rows, so it carries the whole ledger if and only if those sum to zero; the floors trail the exact sum by less than one per row |
| XpLedger.EventAdds | apps/api/services/lootbox_service.py:384-492 | one event: which ledger rows it adds, at the multiplier in force and paid unless its upsert failed, what it publishes and the outside XP it brings |
| XpLedger.RunAdds | apps/api/repository/tournaments_repository.py:1421-1463 | over every run a key has a ledger row exactly when a committed event claimed it, and outside XP is that of the outside grants, each floored at the multiplier last set before it |
| XpLedger.AllAnnounced | apps/api/services/lootbox_service.py:384-492 | a run whose committing events all announce publishes exactly the notices it commits, in order |
| XpLedger.NoticeShowsBalances | apps/api/services/lootbox_service.py:384-459 | a notice carries the base amount and the balance before and after, within one of the exact product, and moves nobody else's balance |
| XpLedger.LedgerOnlyGrows | apps/api/repository/tournaments_repository.py:1421-1463 | no event rewrites a ledger row, so an unpaid one stays unpaid |
| XpLedger.BareFailureIsFinal | apps/api/services/completions_service.py:1147-1163 | a grant that fails between claim and XP is paid by no replay, bare or in a transaction |
| XpLedger.FloorLossBounded | apps/api/repository/lootbox_repository.py:539-584 | the floor loss of one user's rows is at least 0 and below their number |
| XpLedger.RewardService.ClaimXpGrant | apps/api/repository/tournaments_repository.py:1421-1463 | adds the ledger row and answers True exactly when the key is new |
| XpLedger.RewardService.UpsertUserXp | apps/api/repository/lootbox_repository.py:539-584 | adds the floored product, reporting the balance before and after |
| XpLedger.RewardService.GrantXp | apps/api/services/tournament_reward_service.py:65-121 | a replay grants and defers nothing; a fresh claim grants once and defers one notice, or stays unpaid and defers none if its upsert raises |
| XpLedger.RewardService.AwardAll | apps/api/services/lootbox_service.py:384-492 | a rolled-back transaction changes nothing and publishes nothing; a committed one publishes its notices in order |
| XpTiers.UniqueDigits | apps/api/repository/lootbox_repository.py:603-661 | prestige, main, sub and remainder are the only digits of the XP in the mixed radix |
| XpTiers.SummaryShowsDigits | apps/api/repository/lootbox_repository.py:603-661 | the names and totals shown for an amount with given digits, including the wrap of sub tiers and main tiers |
| XpTiers.NextSubTierLands | apps/api/repository/lootbox_repository.py:603-661 | the required XP lands exactly on next_full_tier_name and no smaller gain changes the tier |
| XpTiers.NextMainTierLands | apps/api/repository/lootbox_repository.py:603-661 | the required XP lands on sub 0 of the next main tier, prestige +1 exactly on the wrap |
| XpTiers.MainRankUpReported | apps/api/repository/lootbox_repository.py:197-258 | a main rank-up is reported exactly when the 500-XP steps taken are not a multiple of 20 |
| XpTiers.RankChangeIff | apps/api/repository/lootbox_repository.py:197-258 | for any two balances: main, sub or no rank-up and the prestige flag, each from the steps of 500, 100 and 10000 XP between them |
| XpTiers.MainRankUpExact | apps/api/repository/lootbox_repository.py:197-258 | for gains below required+9500 it is reported exactly from required on; at required+9500 it is not |
| RateLimit.SlidingWindow | apps/api/services/auth_service.py:230-249 | in every run with a clock that does not go back, any window (t-W, t] holds at most max_attempts records per identifier and action |
| RateLimit.WindowBound | apps/api/repository/auth_repository.py:27-55 | the same bound for any log whose attempts were each admitted by the limit |
| RateLimit.ServeAdmits | apps/api/services/auth_service.py:251-517 | every run of the four flows leaves such a log |
| RateLimit.RefusedIff | apps/api/services/auth_service.py:230-249 | a call is refused if and only if the window of its e-mail or of its non-empty IP is full (5 in 3600 s, 10 in 900 s, 3 in 3600 s) |
| RateLimit.AttemptLeftIff | apps/api/services/auth_service.py:251-517 | an admitted call leaves one attempt of its lowered e-mail and action, except at the four exits that leave none |
| RateLimit.AuthService.FetchRateLimitCount | apps/api/repository/auth_repository.py:27-55 | counts the attempts of the lowered identifier and action after the window start |
| RateLimit.AuthService.RegisterUser | apps/api/services/auth_service.py:251-317 | checks e-mail then IP; records on a taken e-mail or success, not on invalid input or a lost race |
| RateLimit.AuthService.LoginUser | apps/api/services/auth_service.py:318-362 | every admitted login is recorded, whatever its outcome |
| RateLimit.AuthService.ResendVerification | apps/api/services/auth_service.py:410-460 | only a resend that is really made is recorded |
| RateLimit.AuthService.RequestPasswordReset | apps/api/services/auth_service.py:462-517 | every admitted request is recorded, user or no user |
| Tags.ExecuteKeeps | apps/api/repository/tags_repository.py:207-599 | every operation keeps: lookups point to tags of their own guild, names unique per guild, every tag found under its own name |
| Tags.RunFromEmpty | apps/api/services/tags_service.py:52-68 | that invariant and exact usage counts after any batches from empty tables |
| Tags.UsesCountHits | apps/api/repository/tags_repository.py:570-599 | a tag's uses are exactly the increments that resolved to it, by any of its names |
| Tags.RemovalIsComplete | apps/api/repository/tags_repository.py:331-383 | removal by any alias succeeds exactly for a known name and takes the tag and all its names, nothing else |
| Tags.PurgeIsComplete | apps/api/repository/tags_repository.py:542-568 | a purge takes exactly that owner's tags of that guild, with exactly their names |
| Tags.OwnershipMovesWhole | apps/api/repository/tags_repository.py:423-540 | claim and transfer give the tag and all its names one owner, transfer only from the current one, and touch no other tag |
| Tags.NewNamesResolve | apps/api/repository/tags_repository.py:207-285 | a created or aliased name stands for exactly the promised tag, and the rows added are the ones given |
| Tags.SuccessIff | apps/api/services/tags_service.py:81-175 | each operation is reported as successful if and only if its names are free, known or owned as it needs |
| Tags.UpdatesTouchOneColumn | apps/api/repository/tags_repository.py:287-329 | an edit by the owner changes the content and an increment the uses of the tag the name stands for, and nothing else |
| Tags.RemovalByIdIs | apps/api/repository/tags_repository.py:385-421 | removal by id takes the tag with all its names if it is in the guild, and nothing otherwise |
| Tags.GuildsAreSeparate | apps/api/repository/tags_repository.py:423-599 | no operation touches another guild's rows although several statements select by tag id alone |
| Tags.FailureChangesNothing | apps/api/services/tags_service.py:81-175 | an operation reported as failed leaves both tables as they were |
| Tags.TagsRepository.FindTagId | apps/api/repository/tags_repository.py:353-363 | the tag a name or alias stands for |
| Tags.TagsRepository.MutateTags | apps/api/services/tags_service.py:52-68 | executes the operations in order, one result each; a failure does not stop the rest |
| SeedBlock.SeedRoundTrip | scripts/export_map_names_seed.py:48-53 | reading the rendered list by the SQL quoting rule gives back exactly the names |
| SeedBlock.LiteralRoundTrip | scripts/export_map_names_seed.py:48-53 | one printed literal reads back as its name, up to exactly its closing quote |
| SeedBlock.RenderIsInjective | scripts/export_map_names_seed.py:48-53 | two lists never print alike |
| SeedBlock.BlockFrame | scripts/export_map_names_seed.py:48-53 | the statement the rendered rows stand in, and the comment printed for no names |
| SeedBlock.RowsJoin | scripts/export_map_names_seed.py:48-53 | two lists in a row print as their rows with a comma and a new line between |
| Completions.SlotKeptIff | apps/api/services/completions_service.py:669-733 | a submission keeps at most one pending row for its user and map if and only if the guard SecondPending is false |
| Completions.OtherSlotsStay | apps/api/services/completions_service.py:669-733 | it never affects another user's or map's slot |
| Completions.SecondPendingHappens | apps/api/services/completions_service.py:678-689 | concrete tables on which the slot is broken |
| Completions.SupersededAtomically | apps/api/repository/completions_repository.py:1467-1583 | without an active cycle a refusal changes nothing, and a stored run rejects every pending row of the slot, all strictly slower, and adds itself with the given columns, in one step |
| Completions.AcceptedIff | apps/api/migrations/0033_speed_trigger_ignore_rejected.sql:23-96 | without an active cycle a run is stored exactly when it beats the pending rows and either every run not rejected, or is partial where the best is full |
| Completions.OutcomeIff | apps/api/services/completions_service.py:665-733 | each of the seven outcomes if and only if its condition on map, user, active cycle, pending rows, runs not rejected and rows of the same instant, on any map and by any clock |
| Completions.SubmitWithCycle | apps/api/services/completions_service.py:694-729 | with an active cycle a stored run is linked to one new pending tournament row, a tournament-only one adds that row alone, and every other outcome changes nothing |
| CompletionVerdicts.WriteBalancedIff | apps/api/services/completions_service.py:1059-1067 | a write keeps the quest books of its row if and only if the flag it read is still current |
| CompletionVerdicts.DieBalancedIff | apps/api/services/completions_service.py:1059-1096 | a call that ends keeps them if and only if it is not between writing a changed flag and counting it |
| CompletionVerdicts.RunBalancedIff | apps/api/services/completions_service.py:1059-1096 | over every run, overlapping, moderated or cut short: updates minus reverts are 1 if verified and 0 otherwise if and only if stale reads and missed quest calls cancel |
| CompletionVerdicts.RunBalanced | apps/api/services/completions_service.py:1552-1577 | for calls not overlapping on one completion: if and only if the missed quest calls cancel, and always when no call ends between its write and its quests |
| CompletionVerdicts.OverlapCountsTwice | apps/api/services/completions_service.py:1059-1094 | two overlapping verify calls count a completion twice |
| CompletionVerdicts.EarlyEndNeverCounted | apps/api/services/completions_service.py:1075-1094 | without overlap, a verify call cut short before its quests leaves a verified row uncounted, and a later complete call does not repair it |
| CompletionVerdicts.RunAgreesIff | apps/api/services/completions_service.py:1203-1261 | over every run: a completion and its tournament row agree if and only if no verdict was propagated or the last one propagated is the last one written |
| CompletionVerdicts.PropagateAgreesIff | apps/api/services/completions_service.py:1217-1236 | a propagation leaves the two rows agreeing if and only if its verdict is still the completion's |
| CompletionVerdicts.RunGuardedIff | apps/api/services/completions_service.py:1203-1261 | overlapping or not, as long as whoever writes the completion goes on to propagate: with none on its way the rows agree if and only if none has propagated or the last one met that guard |
| CompletionVerdicts.RunCoherent | apps/api/services/completions_service.py:1203-1261 | calls not overlapping on the completion always meet the guard, so the rows agree |
| CompletionVerdicts.RunFromFresh | apps/api/services/completions_service.py:1059-1110 | agreement and quest books together, for every run from a fresh store whose calls neither overlap on the completion nor leave it half done |
| CompletionVerdicts.OverlapEitherWay | apps/api/services/completions_service.py:1203-1261 | two overlapping opposite verdicts end in agreement or not, as the second propagation meets its guard or not |
| CompletionVerdicts.EarlyEndDisagrees | apps/api/services/completions_service.py:1091-1110 | without overlap, a rejection cut short before it propagates leaves the tournament row verified |
| CompletionVerdicts.PublishedAreChanges | apps/api/services/completions_service.py:1238-1261 | over every run the status changes of a row are those announced, those about to be, and those whose call ended first; so events equal changes if and only if no call ended in between |
| CompletionVerdicts.RunKeepsSlot | apps/api/repository/completions_repository.py:1467-1520 | on a map without an active cycle no run of submissions and verify calls, overlapping or cut short, gives a user two pending rows |
| CompletionVerdicts.ModerateKeepsSlotIff | apps/api/repository/completions_repository.py:1936-1952 | a moderation keeps the slot exactly unless it unverifies an unsigned row while another is pending |
| CompletionVerdicts.RefinesDrain | apps/api/services/completions_service.py:669-733 | every step changes the tournament tables by nothing or by one submission or verdict step of the drain system |
| CompletionService.CompletionsService.SubmitCompletion | apps/api/services/completions_service.py:643-733 | the new tables and outcome are those of Submit, for the rows the queries picked (OutcomeIff, SubmitWithCycle and SupersededAtomically say what those are) |
| CompletionService.CompletionsService.VerifyCompletion | apps/api/services/completions_service.py:1031-1145 | an undisturbed verify call is fetch, write, count, propagate, publish; unknown completions and verifiers change nothing |
| CompletionService.StoredRunDrains | apps/api/services/completions_service.py:722-729 | submit on an edition's cycle, boundary, verify: the run joins the queue, stays in it, and either verdict takes exactly it out |
| CompletionService.CompletionsService.ModerateCompletion | apps/api/services/completions_service.py:1548-1577 | an undisturbed moderation of the verified flag is fetch, write, count |
| CompletionService.CompletionsService.GetPendingVerification | apps/api/repository/completions_repository.py:1467-1498 | a fastest pending row of the user and map, None only when there is none |

## Left out

- Force-publish, category deletion, rerolling an active cycle, map previews and streaks: they bypass or delete what is being drained, or only add easy members.
- The grants a poller makes inside its transaction: modelled in XpLedger as transactions of their own, not inside the drain machine.
- TournamentDrain.QueueStep: takes a submission's cycle lookup and insert as one step, so a boundary flip between the two is not represented.
- `fetch_user_completion`, listing, paging and display names.
- The advisory lock, debug cadence, calendar arithmetic and map selection of the boundary function: period, pause flag and new cycles are inputs; it opens the next edition with the cycles given.
- Postgres aborting a transaction after the trigger raises: the tournament-only branch of a submission continues, as the Python code reads.
- Outcomes of the unique key (cycle, user, inserted_at) on tournament rows and foreign keys other than the user and the verifier.
- CompletionService.CompletionsService.ModerateCompletion: only the verified flag; time edits and suspicious flags are separate statements that change neither verdicts nor quests.
- TournamentOutbox.PassIsRun: takes the pass without other steps in between; TournamentDrain covers every interleaving.
- Skill recompute events, OCR and the verify and reject endpoints of unlinked tournament rows.
- CompletionVerdicts.RunCoherent: excludes moderation of that completion, which does not propagate (RunAgreesIff covers it); the tournament row of a superseded run is not touched by the code.
- Completions.AcceptedIff: needs a clock ahead of the stored rows, because the trigger skips its check for a row older than the best; Completions.OutcomeIff covers every clock.
- RateLimit.SlidingWindow: bounds the e-mail identifier only, since attempts are recorded under it alone.
- Overflow of 32-bit and 64-bit columns and floating-point rounding; the rounding of time_pct.
- Difficulties and techniques: the same code as categories (technique names are not unique).
- Tags: affected counts, tag ids in results and the ids a refused insert burns.
- The skill scorer, quest rules and reward amounts: inputs.
- Broker, HTTP, e-mail, Discord and storage calls: message lists stand for attempts to publish.

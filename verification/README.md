# CrawlTrove in Dafny

A model of the parts of CrawlTrove whose correctness spans many steps, and proofs about it: the durable
task queue with its live sessions, the in-memory crawl frontier and research loop with their checkpoints,
paid acquisition with its attempt ledger, Markdown chunking, URL identity, the vector index, ranked
retrieval, and four smaller protocols (documentation walk, live-session relay, egress node pool, tunnel
byte budget).

Every component has a file of its own, some with further files of results. Code that changes state is a class (or a method with loops) whose
contracts tie the new state to a step function of the old one; the step function's own properties are
lemmas over every run. Calls into the outside world (HTTP, LLM, browser, database clock, provider APIs,
the KNN query) are arguments: an answer, an event, a fault or an order that the caller chooses freely,
so that a theorem about all arguments is a theorem about all behaviours of the outside world. A crash is
one of those choices. `dafny verify dfyconfig.toml` checks the whole project.

| file | component |
|---|---|
| `QueueModel.dfy`, `QueueEffects.dfy`, `QueueOutcomes.dfy`, `QueueInvariant.dfy`, `QueueRuns.dfy`, `QueueStore.dfy` | transactions of the durable queue and of live sessions; what each does, and what becomes of links, leases and jobs; their invariant; runs; the session store as a class |
| `Frontier.dfy`, `FrontierCoverage.dfy` | crawl workers, pending mirror, checkpoints, crash and resume; how far a crawl goes and what it misses |
| `Research.dfy`, `ResearchStops.dfy`, `ResearchReads.dfy`, `ResearchCounters.dfy`, `ResearchRuns.dfy` | the budgeted research loop as control points, and as structured code that follows them; when it stops and goes on; what it reads twice; what its counters forget; runs that show both |
| `Acquisition.dfy`, `RouterOutcomes.dfy` | adapter costs, attempt ledger, router and registry; which routes get their turn and how a call ends |
| `Chunking.dfy` | Markdown block parser and section-aware packer |
| `UrlIdentity.dfy`, `PathMeaning.dfy` | percent-normalisation, dot segments, path identity (sections 5.2.4, 6.2.2.2 and 6.2.2.3 of RFC 3986); what they keep and promise |
| `VectorIndex.dfy`, `IndexMeaning.dfy` | the three tables, filtered search, filter predicates, window chunker; what filters ask for and documents become |
| `Retrieval.dfy` | keyword merge, rank fusion, parent collapse, depth loop |
| `GraphWalk.dfy`, `ByteBudget.dfy` | documentation walk, tunnel budget |
| `Tunnel.dfy`, `RelayOutcomes.dfy`, `SessionGate.dfy` | session relay; its tickets and who is asked and answers; the relay and the session tables under one clock |
| `ProxyPool.dfy`, `EgressOutcomes.dfy` | node pool; which node a task gets and what befalls a node |

The queue invariant, named in several rows below, says: every cached counter of a job (reserved bytes and
artifact bytes, terminal, failed and succeeded tasks) is the sum over its task rows; only leased tasks hold
reservations; no budget is overspent, reservations included; origin leases are exactly those of the leased
tasks, one for each origin; every parked task has an open session within the job's deadline; tokens end with
their session; and a finished job has only terminal tasks.

## What the proofs found

- A stray `%` breaks idempotence of percent-normalisation (`%%34%31` becomes `%41`, then `A`); the exact condition, on the raw text, is proved for texts and for whole paths.
- The comment at app/crawler.py:149-154 says a page in flight at a crash is retried only if a later page links to it again. Without such a link, in a crawl that ends below its limit, it is retried exactly when the checkpointed frontier still lists it (`FrontierProofs.RetriedIffListed`), which a crawl can reach from its start (`FrontierProofs.InFlightAndListed`).
- Rewriting escapes keeps what a text says exactly when no stray `%` gets two hex digits behind it (`PathMeaning.SaysTheSameIff`); every text with well-formed escapes is one.
- `close_completed` (app/acquisition/sessions.py:368-376) does not look at the task; it keeps the queue consistent exactly when the task is no longer parked, which only its caller ensures (`QueueInvariant.CloseCompletedKeepsIff`).
- docs/spec-deep-research.md:92-95 says terminal leftovers of a crash between artifact save and checkpoint delete are cleaned up on restore. No checkpoint is ever terminal, so that branch of app/research.py:153-156 is never taken and such a run is resumed and run again (`ResearchProofs.ArchivedRunRunsAgain`, `ResearchRuns.ArchivedFromTheStart`).
- docs/spec-deep-research.md:76-79 says a resume never re-reads a page or double-counts a budget. The saved counters indeed never exceed their limits, but a restart forgets what memory had counted since the last checkpoint: exactly that and nothing else (`ResearchCounters.ForgetsAtRestartsOnly`), and how much it is follows from the control point of the crash (`ResearchCounters.ForgetsByControlPoint`). A job that the API admits, under its cap of 40 calls, can make 41 + 2n calls with n crashes (`ResearchRuns.CallsBoundIsTight`); pages can exceed their budget by one for each crash, as far as later rounds can list more (`ResearchCounters.PagesBounded`, `ResearchRuns.PagesBoundIsTight`).
- A cancel of a research run is kept in memory until the next checkpoint, and winding down writes none: a run that has ended as cancelled and dies before its archive is written restarts with the cancel forgotten (`ResearchStops.CancelIsForgotten`); it is remembered exactly if the checkpoint has it (`ResearchStops.RestartedAsSaved`).
- A page is read twice, crash or no crash, exactly when one round's list names it twice (`ResearchReads.ReadTwiceIffListedTwice`); when selections repeat nothing, this happens in some run exactly when the seed urls within the page budget name a page twice (`ResearchRuns.ReadOnceIff`).
- An acquired page that cannot be turned into a result fails the call while its attempt is settled as succeeded; that is exactly when it happens (`RouterProofs.UnusablePageIsBookedAsSuccess`).
- A Browserbase session whose creation reply says `"browserMinutes": NaN` passes the adapter's range check (app/acquisition/browserbase.py:183-187) and is refused by the ledger, so its attempt stays open (`ProviderCosts.CostsFit`, `RouterProofs.AcquireSettlesEachAttemptOnce`).
- Vector search ends except with k = 0 and no filter on a non-empty index of the query's dimension while no query raises (`IndexProofs.SearchEndsIff`). The two filter predicates agree on metadata of strings, integers, truth values and null exactly when no filter is effective, or no kind or the corpus kind is given and no facet value is the rendering of an integer, a truth value or nothing; every fraction, list or object that may occur besides adds its own condition (`IndexProofs.FiltersAgreeOnAll`), such as 1.5, which Python compares as text and SQL as a number (`IndexProofs.FractionsAndListsDisagree`).
- A worker reply that comes from another socket of the same session removes the pending entry without answering it; afterwards only the deadline of the request's own wait ends it (`RelayProofs.WrongSocketOrphans`, `RelayProofs.OrphanFromTheStart`).
- A control connection can open sixty seconds or more after its session's expiry, exactly over a bridge issued after that expiry, as one is when its exchange waited for the database that long (`SessionGate.LateIffIssuedLate`, `SessionGate.OpensLate`).
- A node's failure count is never reset, blocks included (`EgressOutcomes.FailuresAddUp`): once it has come near the threshold, a node that is registered again goes offline at its first transport failure (`EgressOutcomes.NextFailureIsTheLast`).
- A blocked egress node stays out after its cooldown until somebody registers it, configured nodes included (`ProxyNodes.OutUntilRegistered`); a block can be cut short exactly when the node's latest block ends before it, and that is not yet past (`ProxyNodes.CutShortIff`); a task is handed a node that its lease does not cover exactly when it already holds a live lease on another node or under another token (`ProxyNodes.LeasedIff`).

## Model

| member | source | states |
|---|---|---|
| `QueueInvariant.ClampNeverBites` | app/acquisition/sessions.py:128-147 | a job's reserved bytes and artifact bytes are at least what any one of its tasks holds, so the GREATEST(0, …) clamps never change a value |
| `QueueEffects.ParkingGivesEverythingBack` | app/acquisition/sessions.py:95-160 | parking succeeds exactly for the owner of the live lease, while the job is live and the task never had a session; the task then holds nothing, the job gets back exactly what it held, the origin is free, the session outlives neither the time asked for nor the job's deadline, and nothing else changes |
| `QueueEffects.IssuedTokenIsGood` | app/acquisition/sessions.py:163-213 | an issued token is consumable exactly for its scope and before it and its session run out |
| `QueueEffects.ClosingDecides` | app/acquisition/sessions.py:239-330 | closing succeeds exactly on an open session, which ends as cancelled or expired, or closed if its task has succeeded; a parked task ends, a leased one only by a cancel or its own worker, any other stays; the reservation is given back exactly, a cancel counts no failure and an expiry one |
| `QueueEffects.ExpiryEndsDueSessions` | app/acquisition/sessions.py:379-421 | every due session gone over is expired and its parked task failed; the others are untouched |
| `QueueEffects.ClaimTakesEffectIff` | app/crawl/repository.py:930-1062 | a fresh token leases a task exactly when it is due, its origin idle and its job live with budget left; task and job are charged the same reservation, the page's cap or all the budget left, and no other task or job changes |
| `QueueEffects.CompletionConvertsReservation` | app/crawl/repository.py:1246-1322 | completing succeeds exactly under the live lease of a live job within both reservations; the whole reservation leaves the job, the real usage is charged instead, and the origin is free |
| `QueueOutcomes.CompletionQueuesLinks` | app/crawl/repository.py:1161-1203 | after every successful completion the links that were no rows yet are queued in their order, each once, as many as the page limit leaves room for, due at once with their own caps; `discovered` grew by exactly the number of new rows; every link is a row or the limit is reached; no other row changed |
| `QueueEffects.FailureLimitDrains` | app/crawl/repository.py:780-867 | a permanent failure at the limit fails everything the job has queued and nothing it has leased or finished |
| `QueueEffects.CancelEndsWhatIsQueued` | app/crawl/repository.py:279-329 | cancelling ends all queued tasks of the job and their sessions, touches nothing else, and cancels the job unless something is still leased |
| `QueueEffects.ReapFrees` | app/crawl/repository.py:1437-1480 | an expired lease gives its reservation and origin back; its task is requeued, or ended when its attempts or its job are over |
| `QueueOutcomes.RetryDecides` | app/crawl/repository.py:1325-1382 | a retry is accepted exactly under a live lease of a live job; the task waits for the time asked, or fails once its attempts are used up; the reservation is back, what was downloaded is charged, and bystanders change only if the failure reaches the job's limit |
| `QueueOutcomes.FailDecides` | app/crawl/repository.py:1385-1434 | so are a failure and a robots block, which end the task; a refused report under a lease of a cancelled or overdue job ends the task as cancelled or failed |
| `QueueOutcomes.OverrunStopsTheJob` | app/crawl/repository.py:1246-1282 | a completion outside its reservation is refused, fails the task, charges what it held and fails everything the job has queued |
| `QueueOutcomes.HeartbeatRenews` | app/crawl/repository.py:1207-1225 | a heartbeat is accepted exactly under a live lease of a live job, extends it to two minutes from now and changes nothing else |
| `QueueOutcomes.ReapDecides` | app/crawl/repository.py:1437-1480 | exactly an expired lease is reaped: the task is due again at once, or ended with its job or its attempts |
| `QueueOutcomes.ClaimOtherwise` | app/crawl/repository.py:930-1062 | a claim that leases nothing changes nothing, unless the task was due and no budget left: then everything the job has queued fails |
| `QueueOutcomes.ResumeLeasesAgain` | app/crawl/repository.py:1084-1158 | exactly a live resuming session of an own worker, with a parked task, an idle origin and budget, leases its task again, as the same attempt |
| `QueueOutcomes.SubmissionQueuesOnePage` | app/crawl/repository.py:127-203 | a submitted job has one page, due now and counted, its limits as asked, and nothing spent |
| `QueueOutcomes.FinalizeJudges` | app/crawl/repository.py:499-565 | the deadline cancels what is queued; once nothing of the job is to come it is cancelled, timed out, partial, failed or completed, each exactly under its condition on the task rows; a finished job is never judged again |
| `QueueOutcomes.SessionMoves` | app/acquisition/sessions.py:163-345 | attaching, resuming and issuing a token succeed exactly for a waiting or connected session that has not run out |
| `QueueInvariant.SetSessionKeeps` | app/acquisition/sessions.py:239-330 | changing a session's state keeps the queue invariant exactly when it does not close the open session of a parked task |
| `QueueInvariant.CloseCompletedKeepsIff` | app/acquisition/sessions.py:368-376 | close_completed keeps the queue invariant if and only if the resuming session's task is no longer parked |
| `QueueInvariant.ExpireDueKeeps` | app/acquisition/sessions.py:379-421 | expiring any rows in any order keeps the queue invariant, although it skips the release of reservations |
| `QueueRuns.StepKeeps` | app/crawl/repository.py:568-578 | every transaction, of any caller at any time, keeps the queue invariant; only close_completed has a condition on its use |
| `QueueRuns.RunEvolves` | app/acquisition/sessions.py:338-345 | over any run session states never move backwards, terminal tasks stay as they are, lease tokens and consumed session tokens are never reused |
| `QueueRuns.NoRunStrands` | app/acquisition/sessions.py:239-330 | no run leaves a parked task without a session that is still open |
| `QueueRuns.CountersTellTheTruth` | app/acquisition/sessions.py:267-302 | at any point of any run each terminal task is counted once, failures only for tasks that failed, reserved bytes are the sum over tasks, and no byte, artifact or page budget is overspent |
| `QueueRuns.StaleLeaseIsPowerless` | app/crawl/repository.py:568-578 | a lease token that was lost can never again complete, retry, fail, extend or park anything |
| `QueueRuns.TokenConsumedOnce` | app/acquisition/sessions.py:192-213 | a session token is consumed at most once in any run, strictly before its expiry, which is within the session's and the job's deadline |
| `QueueRuns.CompletionLegitimisesClose` | app/acquisition/owned_session.py:398-410 | once complete_task has succeeded, close_completed is legal for the rest of any run |
| `QueueRuns.OneLeasePerOrigin` | app/crawl/repository.py:930-1062 | at no point of any run of a new database do two leased tasks share an origin or a lease token |
| `QueueStore.Store.WaitForInputLocal` | app/acquisition/sessions.py:95-160 | the statement-by-statement transaction is the step function, and answers whether it happened |
| `QueueStore.Store.IssueToken` | app/acquisition/sessions.py:163-189 | the statements are the step function |
| `QueueStore.Store.ConsumeToken` | app/acquisition/sessions.py:192-213 | the statements are the step function |
| `QueueStore.Store.RequestResume` | app/acquisition/sessions.py:228-236 | the statements are the step function |
| `QueueStore.Store.Touch` | app/acquisition/sessions.py:338-345 | the statements are the step function |
| `QueueStore.Store.Close` | app/acquisition/sessions.py:239-330 | the statements are the step function, for every reason and closer |
| `QueueStore.Store.Cancel` | app/acquisition/sessions.py:333-335 | cancelling is closing by cancel |
| `QueueStore.Store.CloseCompleted` | app/acquisition/sessions.py:368-376 | the statements are the step function |
| `QueueStore.Store.ExpireDue` | app/acquisition/sessions.py:379-421 | the loop over the due sessions expires each once; the answer counts the tasks that failed |
| `FrontierProofs.StepKeeps` | app/crawler.py:242-357 | every step of every worker keeps: results and errors are within visited, claims are distinct, the pending mirror is the queue plus what is between get and claim, and the join counter counts queued and busy entries |
| `FrontierProofs.LimitAndUniqueness` | app/crawler.py:138-165 | under any interleaving and any crashes the visited set is within the limit and the results hold each normalized URL once, at most limit of them |
| `FrontierProofs.CheckpointLosesNothing` | app/crawler.py:84-109 | the checkpoint written when a page is finished, at any point of any run from the start, holds the whole queue and every entry between get and claim, as a multiset |
| `FrontierProofs.DoneIffDrained` | app/crawler.py:351-363 | the join counter is zero exactly when the queue is empty and every worker idle: one task_done for each entry |
| `FrontierProofs.StepDecreases` | app/crawler.py:242-357 | every step lowers (room under the limit, work left) lexicographically |
| `FrontierProofs.NoDeadlock` | app/crawler.py:242-357 | while something is unfinished some worker can step |
| `FrontierProofs.ReachesDone` | app/crawler.py:351-363 | from every reachable state the crawl drains |
| `FrontierProofs.InFlightPageIsSkipped` | app/crawler.py:138-165 | a page claimed but unrecorded at the crash, and listed nowhere else, is never visited again, through any further crashes, until a page links to it |
| `FrontierProofs.RetriedIffListed` | app/crawler.py:138-165 | if no page links to it again and the resumed crawl ends below its limit, a page in flight at the crash is visited again if and only if the checkpointed frontier lists it |
| `FrontierProofs.InFlightAndListed` | app/crawler.py:245-339 | a crawl reaches such a checkpoint from its start: a page that is in flight, unrecorded and still listed under a second url |
| `FrontierProofs.FrontierMayRepeat` | app/crawler.py:333-339 | two links of one page enter the frontier twice |
| `FrontierCoverage.DepthIsBounded` | app/crawler.py:215-339 | in every run, crashes included, whatever is queued, mirrored, checkpointed or held lies between depth 0 and the depth limit, but for the base page at 0 and sitemap seeds at 1 |
| `FrontierCoverage.LinksAreListed` | app/crawler.py:331-339 | a recorded page lists behind the queue exactly its unvisited links, one deeper than itself, if depth and limit allow, and none otherwise |
| `FrontierCoverage.SeedsAreListed` | app/crawler.py:215-233 | a crawl starts with its base page, then exactly the sitemap urls that are other pages |
| `FrontierCoverage.SeedsAreVisited` | app/crawler.py:215-363 | a crawl that drains without a crash has visited its base page and every seed, or reached the page limit |
| `FrontierCoverage.LinksAreVisited` | app/crawler.py:242-363 | from any point, a crawl that drains without a further crash has visited every link of a page it recorded below the depth limit, or reached the page limit |
| `FrontierCoverage.FirstInFirstOut` | app/crawler.py:225-248 | between crashes entries leave the queue in the order they came |
| `FrontierCoverage.VisitedIsRecorded` | app/crawler.py:242-363 | when a crawl is done, after any crashes, the visited pages are exactly those with a result or an error |
| `FrontierCoverage.RestartFromCheckpoint` | app/crawler.py:84-165 | a crash right after a checkpoint loses no result, no error and no queued entry; visited stay exactly the pages with a result or an error |
| `CrawlJob.Job.constructor` | app/crawler.py:219-233 | seeding gives the start state, invariant included |
| `CrawlJob.Job.Claim` | app/crawler.py:245-267 | the locked claim is the step function |
| `CrawlJob.Job.RecordSuccess` | app/crawler.py:311-339 | recording a result and its new links is the step function; behind what was queued stand exactly the unvisited links, one deeper than the page, if depth and limit allow |
| `CrawlJob.Job.Finish` | app/crawler.py:350-357 | task_done and the checkpoint are the step function |
| `CrawlJob.Job.CrashAndResume` | app/crawler.py:111-165 | restore and resume rebuild visited, pending and queue from the last checkpoint |
| `ResearchProofs.NextKeeps` | app/research.py:243-315 | every reply, crash, restart and resume keeps the invariant of the research run |
| `ResearchProofs.BudgetsHold` | app/research.py:257-303 | over every history pages, LLM calls and rounds stay within their budgets (one synthesis call beyond the cap), pages read and pages still to read fit the page budget, a page is begun exactly if there is no cancel and the deadline has not passed, and each page is claimed in one round only |
| `ResearchStops.StopsForGood` | app/research.py:97-103 | from any point of any history, a run that is cancelled, or whose deadline has passed, begins no search, page or assessment any more; it still makes at most the call and the page that follow from the await in flight, and the synthesis |
| `ResearchStops.CancelledEnds` | app/research.py:184-241 | a cancelled run that is not killed ends with its report, as cancelled unless it failed |
| `ResearchStops.CancelIsForgotten` | app/research.py:90-162 | a run from the start of a job that has wound down as cancelled, and restarts with the cancel forgotten |
| `ResearchStops.RestartedAsSaved` | app/research.py:135-162 | a restarted run is cancelled exactly when its checkpoint says so |
| `ResearchStops.ChecksDecide` | app/research.py:257-307 | at the three checks the run goes on exactly if nobody has cancelled, the deadline is to come, and pages, or calls, are left; the page claimed is the first that waits; else it winds down, with a synthesis exactly if it has a relevant source |
| `ResearchStops.RoundsDecide` | app/research.py:243-315 | another round begins exactly after an assessment that came back, found the sources not enough and named new queries, while rounds are left; planning begins exactly once, before the deadline and with a call left |
| `ResearchStops.SearchesDecide` | app/research.py:267-290 | a search lists first what waits and is unseen, in order, within the budget; a selection is asked for exactly if something new was found and pages and calls are left |
| `ResearchStops.SelectionAddsPicks` | app/research.py:279-290 | a selection adds the offered pages it names, all of them unless six or the budget cut them off |
| `ResearchStops.PagesDecide` | app/research.py:317-349 | a scrape that returns counts its page, a successful one is noted if calls are left, and the notes become the next source |
| `ResearchProofs.WaitingHere` | app/research.py:293-303 | the next page of a round was claimed before exactly when this same round claimed it |
| `ResearchProofs.RealHistory` | app/research.py:115-133 | with no failed checkpoint write every page is really read in one round only, and the calls and pages really spent exceed the limits by at most two and one for each crash |
| `ResearchCounters.ForgetsAtRestartsOnly` | app/research.py:107-182 | in every history, whatever is saved, the real calls are the counted ones and the sum, over the restarts, of what memory had counted and the checkpoint had not; so are the pages |
| `ResearchCounters.SumsVanish` | app/research.py:107-182 | nothing is forgotten if and only if every restart finds both counters saved as they were |
| `ResearchCounters.ForgetsByControlPoint` | app/research.py:107-182 | with no failed checkpoint write the amount is decided by where the process died: a call while an answer is awaited, a page while its notes are, and while winding down what the loop had left unsaved and the report's call; nothing is forgotten if and only if no restart follows a crash at such a point |
| `ResearchCounters.PagesBounded` | app/research.py:257-303 | with no failed checkpoint write n crashes let a run fetch at most the page budget and n pages more, and no more than the later rounds can list, six each within the budget |
| `ResearchProofs.RunEnds` | app/research.py:184-241 | whatever the world answers, a run that is not killed ends after boundedly many awaits with a report and a final status |
| `ResearchProofs.SelectionOk` | app/research.py:279-290 | a round reads what was waiting, then at most six picks from the fresh results, all unseen and within the page budget |
| `ResearchProofs.FreshIsUnseen` | app/research.py:269-277 | fresh results are unseen, http, pairwise different pages, and none is missed |
| `ResearchProofs.ArchivedRunRunsAgain` | app/research.py:135-162 | a run that saved its artifact and crashed before deleting its checkpoint is restored and runs again |
| `ResearchRuns.ArchivedFromTheStart` | app/research.py:135-241 | a run from the start of a job that is reported and archived, dies before the delete, and is queued again |
| `ResearchProofs.RestoreKeepsEveryRun` | app/research.py:148-162 | restore turns every checkpoint into an interrupted run; its clean-up branch is never taken |
| `ResearchReads.ReadTwiceIffListedTwice` | app/research.py:260-303 | with no failed checkpoint write pages are begun in the order of the committed lists and no two rounds list one page; so a page is read twice if and only if what has been begun of one round's list names it twice |
| `ResearchReads.EachPageReadOnce` | app/research.py:260-303 | when the seed urls within the page budget name no page twice and no selection names a page twice or one that already waits, each page is read at most once, through any crashes and resumes |
| `ResearchRuns.SeedsReadTwice` | app/research.py:252-303 | from the start of a run, seeds that name a page twice within the page budget are read twice |
| `ResearchRuns.ReadOnceIff` | app/research.py:252-303 | all histories whose selections repeat nothing read each page once if and only if the seed urls within the page budget name no page twice |
| `ResearchRuns.RepeatedListIsRead` | app/research.py:292-303 | a list of any round that names a page twice is read twice by a run that is not stopped before its end |
| `ResearchRuns.CallsBoundIsTight` | app/research.py:29-133 | a job the API admits, with the cap of 40 and 38 seeds, has for every number n of crashes a history of exactly 41 + 2n calls, 2n of them forgotten |
| `ResearchRuns.PagesBoundIsTight` | app/research.py:107-303 | for every number of rounds and pages the API admits, the cap of 40 and every number of crashes, some history fetches exactly as many pages as `ResearchCounters.PagesBounded` allows |
| `ResearchRunner.Manager.RunResearch` | app/research.py:184-241 | the structured code, however far the answers go, is exactly the run of the control points; with enough answers it ends with a report |
| `ResearchRunner.Manager.MainLoop` | app/research.py:243-258 | planning happens once; then the rounds |
| `ResearchRunner.Manager.Rounds` | app/research.py:257-315 | the round loop follows the control points from any phase it is resumed in; entered with a cancel it begins, calls and fetches nothing |
| `ResearchRunner.Manager.SearchPhase` | app/research.py:267-290 | search and select follow the control points |
| `ResearchRunner.Manager.ReadPhase` | app/research.py:292-303 | the page loop follows the control points: each url is claimed on disk before it is read; entered with a cancel it reads nothing and stops, unless nothing waited |
| `ResearchRunner.Manager.Verdict` | app/research.py:305-315 | the assessment follows the control points; entered with a cancel it makes no call and stops |
| `ResearchRunner.Manager.ReadPage` | app/research.py:317-349 | scraping and note-taking follow the control points on every exit |
| `ResearchRunner.Manager.WindDown` | app/research.py:351-386 | every way out of the loop leaves a report and a final status |
| `ResearchRunner.Manager.RestoreFromCheckpoints` | app/research.py:135-162 | restore is the restart step |
| `ResearchRunner.Manager.ResumeResearch` | app/research.py:164-182 | only an interrupted run resumes, at its parked loop state |
| `ProviderCosts.CostsFit` | app/acquisition/providers.py:10-22 | whatever a provider answers, a cost any adapter reports has exactly the route's meters and lies between zero and the reservation; the one charge that is no cost is a NaN of browser minutes, reported exactly by a captured, public browser session whose creation reply said so |
| `ProviderCosts.FirecrawlFits` | app/acquisition/firecrawl.py:105-133 | every exit of the adapter that reports a cost reports one credit, within what was reserved, and every scrape, even one that ends in an unexpected exception, is charged one credit |
| `ProviderCosts.UnlockerChargesWhatWasSent` | app/acquisition/brightdata.py:105-156 | an unlocker attempt is charged one request exactly when one was sent, unexpected exceptions included |
| `ProviderCosts.RetryableExactly` | app/acquisition/firecrawl.py:115-198 | which exits lead to another route: of a web provider exactly a lost connection, a rate limit or a server error after the request, of the unlocker also a challenge, of a session a browser fault or what the provider calls retryable, of the local adapter that or a challenge |
| `ProviderCosts.PageExactly` | app/acquisition/brightdata.py:105-157 | which exits deliver a page: of a web provider exactly a good, complete, small and public reply, of the unlocker no challenge, of a session a captured public page with possible usage |
| `ProviderCosts.CodesExactly` | app/acquisition/brightdata.py:105-157 | when the two codes the router acts on are reported: a challenge by the unlocker for a challenge page it could read, a protocol error for a success that was read and not understood |
| `ProviderCosts.SessionCostsWhatIsReported` | app/acquisition/browserbase.py:167-192 | a captured session page costs the minutes reported, if they fit what was reserved, and all of that if none are |
| `AcquisitionLedger.ApplyOk` | app/crawl/repository.py:581-716 | every reservation, settlement and abandonment, by any worker, keeps reserved equal to the open reservations, consumed equal to the closed charges, both within the limit, and at most four attempts for a task and two on a route |
| `AcquisitionLedger.ApplyGrows` | app/crawl/repository.py:658-716 | an attempt is closed at most once and never changes otherwise |
| `AcquisitionLedger.ReservedIff` | app/crawl/repository.py:581-655 | an attempt is reserved exactly under a live lease, below four attempts of the task and two on the route and the task's own maximum, with the cost left on every meter; it adds the open attempt and holds its cost, and nothing else |
| `AcquisitionLedger.CutClosesOpenAttempts` | app/crawl/repository.py:870-926 | settling under a cut lease abandons every open attempt of the task, each at its whole reservation, and no other attempt |
| `RouterProofs.AcquireSettlesEachAttemptOnce` | app/acquisition/router.py:53-202 | a call reserves at most three attempts, each settled once before the next is reserved and before the call ends, at the charge the adapter reported or else the reservation; a settlement takes effect exactly when the database answers, the lease is live, the attempt still open and the charge no NaN, and unless it got no answer, raised on a NaN or found the lease another's, the attempt is closed in the end; all but the last ended in a retryable failure; the call returns a page exactly when the last attempt came to a usable public page and its settlement did not raise; only healthy providers are used; human input is asked for only if allowed |
| `RouterProofs.RaisesExactlyOnNaN` | app/crawl/repository.py:658-700 | a settlement raises exactly when the database answers, the lease is live, the attempt still open and a captured, public browser session reported a NaN of minutes |
| `RouterOutcomes.AcquireTells` | app/acquisition/router.py:53-216 | every call goes as told: after the url check each route of the plan has its turn; it is passed over exactly if it is down, the browser has no budget, or its attempt failed retryably; the static routes follow exactly a challenge met by the plain local fetch of an ordinary page without a provider asked for; a call that has had all its turns ends with the last failure, or asks a human about a challenge if it may; any other end is that of its last attempt or reservation |
| `RouterOutcomes.OnlyADownRouteIsPassedOver` | app/acquisition/router.py:90-202 | a call that reports the retryable failure of its first route as its own has found its second route down |
| `RouterProofs.UnusablePageIsBookedAsSuccess` | app/acquisition/router.py:122-171 | the last attempt of a call is settled as succeeded although the call returns no page exactly when the service gave a public page at a real cost, the settlement was answered under the live lease for the open attempt, and the page could not be normalized; the call then ends in an internal error with the success in the ledger |
| `AcquisitionRouter.Router.AcquirePage` | app/acquisition/router.py:53-101 | the recursive method computes the specified world and outcome, and goes as told there |
| `AcquisitionRouter.Router.WalkRoutes` | app/acquisition/router.py:90-202 | so does the loop over the routes |
| `AcquisitionRouter.Router.AttemptRoute` | app/acquisition/router.py:91-131 | so does one turn of it |
| `RouterProofs.JudgeFits` | app/acquisition/router.py:132-160 | what the except clauses make of an adapter's exit: a charge within the reservation unless it is the NaN of a session, the next route or the static ones only after a retryable failure, a page only for a success that could be used |
| `AcquisitionRouter.Router.SettleAttempt` | app/acquisition/router.py:154-171 | the finally clause settles once; an error of its own, from the database or the ledger, replaces what was pending |
| `AcquisitionRouter.Registry.Demote` | app/acquisition/registry.py:57-68 | health changes only for a known provider and only away from configured |
| `MarkdownBlocks.IterBlocks` | app/corpus/chunking.py:31-70 | the index loop yields exactly the parsed blocks |
| `MarkdownBlocks.ParseIsWf` | app/corpus/chunking.py:31-70 | blocks are well formed: every fence but the last block is closed, by its first closing line; paragraphs hold only text lines |
| `MarkdownBlocks.ParseRender` | app/corpus/chunking.py:31-70 | parsing the rendering of well-formed blocks gives those blocks back |
| `MarkdownBlocks.ParseKeepsInk` | app/corpus/chunking.py:31-70 | parsing neither loses, repeats nor reorders a non-blank line |
| `ChunkPacking.ChunkMarkdown` | app/corpus/chunking.py:94-148 | every block lands in exactly one chunk, in order; each chunk carries the sections open after its leading headings, exceeds the maximum only as a single block or by a last heading added below target, goes past its target only by the text right under a heading, and ended because it was full, or its next block did not fit, or it is an over-long code block alone |
| `ChunkPacking.ChunksUnique` | app/corpus/chunking.py:94-148 | these laws leave no choice: only one list of chunks meets them |
| `ChunkPacking.TokensAreWords` | app/corpus/chunking.py:27-28 | the size of a text is the number of its words, whatever blanks stand between them |
| `ChunkPacking.ChunksReparse` | app/corpus/chunking.py:119-148 | re-parsing a chunk's text gives that chunk's blocks |
| `ChunkPacking.ShortHeadingsBoundChunks` | app/corpus/chunking.py:119-148 | if headings have at most max − target words, a chunk exceeds the maximum only when it is over-long by one block alone |
| `ChunkPacking.PopSections` | app/corpus/chunking.py:125-133 | popping the heading stack leaves the sections above the new level |
| `ChunkPacking.OpenAppend` | app/corpus/chunking.py:101-133 | the heading stack is the list of sections open at that point of the document |
| `PercentEncoding.IdempotentIff` | app/normalize.py:30-39 | percent-normalising twice is percent-normalising once if and only if no stray % stands before two units, raw characters or escapes of unreserved ones, that mean two hex digits of a non-canonical escape |
| `PercentEncoding.RawSpellsIff` | app/normalize.py:30-39 | reading that off the raw text is reading it off the normalized text |
| `PercentEncoding.StrayPercentCounterexample` | app/normalize.py:30-39 | the concrete text on which it is not |
| `PercentEncoding.DistributesOverSlash` | app/normalize.py:30-39 | percent-normalising distributes over slash-separated segments |
| `PathMeaning.SaysTheSameIff` | app/normalize.py:30-39 | the rewritten text stands for the same characters if and only if no stray % gets two hex digits behind it; else for fewer |
| `PathMeaning.WellFormedSaysTheSame` | app/normalize.py:30-39 | in particular every text with well-formed escapes keeps what it says |
| `PathMeaning.NormalizedIsCanonicalIff` | app/normalize.py:24-39 | the result has only upper-case escapes of characters that need one, exactly when no stray % spells another |
| `DotSegments.RemoveDotSegments` | app/normalize.py:42-75 | the string-rewriting loop equals the stack fold over segments, for every path |
| `DotSegments.SplitJoin` | app/normalize.py:42-75 | splitting joined segments gives them back |
| `PathMeaning.DotsMeanNothingElse` | app/normalize.py:42-75 | in an absolute path a segment followed by `..`, a `.`, and a `..` at the root leave no trace as long as more follows; a path without dot segments stays |
| `PathIdentity.PathIdBySegments` | app/normalize.py:134-137 | the path identity is computed segment by segment, with no dot segment left |
| `PathIdentity.IdempotentIff` | app/normalize.py:134-137 | the whole path identity is idempotent if and only if every segment that survives dot resolution is free of such a stray % |
| `PathIdentity.IdempotentOnWellFormed` | app/normalize.py:134-137 | in particular on every path with well-formed escapes |
| `IndexProofs.UpsertedValid` | app/vecindex.py:230-286 | after an upsert chunk ids, vector ids and mirror ids coincide, texts agree, and every vector has the stamped dimension |
| `IndexProofs.UpsertedDoc` | app/vecindex.py:250-282 | an upsert replaces the document by its new chunks, at least one, and leaves every other document as it was |
| `IndexMeaning.EntriesAre` | app/vecindex.py:250-282 | those chunks are the document's texts in order, each with its vector, url and metadata, but for those whose vector has another dimension than the first |
| `IndexMeaning.UpsertedIs` | app/vecindex.py:230-286 | with vectors of one dimension the document comes to consist of exactly its chunks |
| `VectorIndex.Index.Upsert` | app/vecindex.py:230-286 | whichever statement raises, the tables agree: the document is replaced whole and the number of its chunks returned, or nothing but the stamp changed |
| `VectorIndex.Index.EnsureVecTable` | app/vecindex.py:151-162 | the first write stamps the dimension; another one is refused |
| `VectorIndex.Index.Search` | app/vecindex.py:357-409 | the widening loop, watched for any number of turns, for every k: it ends exactly under the condition of `IndexProofs.SearchEndsIff`, with the first k rows of the full distance order that satisfy the filter |
| `IndexProofs.NearestFirst` | app/vecindex.py:376-409 | those are the k nearest matching rows, all of them when fewer than k match |
| `IndexMeaning.FoundByDistance` | app/vecindex.py:376-409 | they come back by growing distance, each once |
| `IndexMeaning.MatchesExactly` | app/vecindex.py:338-354 | vector search takes a row with string metadata exactly if it is of the kind asked for and, once a facet is asked for, a corpus record with every value asked, an untiered one being one without a tier |
| `IndexMeaning.StripIs` | app/vecindex.py:338-354 | a facet value is asked for without the blanks around it, and with nothing else missing |
| `IndexProofs.FiltersAgree` | app/vecindex.py:310-354 | the two filter predicates agree on rows with string metadata if and only if no filter is effective, or no kind is given, or the kind is corpus |
| `IndexProofs.DifferIff` | app/vecindex.py:310-354 | on any row the predicates differ exactly when vector search takes a facet value that only Python renders to what is asked, or keyword search takes one that only SQL extracts as that, or a row that is no corpus record although a facet is set |
| `IndexProofs.FiltersAgreeOnAll` | app/vecindex.py:310-354 | on metadata of strings, integers, truth values, null and any given fractions, lists and objects they agree if and only if no filter is effective, or the kind is absent or corpus and no facet value is "untiered" for the tier, an integer numeral, "True", or told apart by one of those given |
| `IndexProofs.FractionsAndListsDisagree` | app/vecindex.py:332-353 | a fraction and a list on which they differ |
| `IndexProofs.SearchEndsIff` | app/vecindex.py:375-409 | the search ends if and only if k is not 0, or a filter is given, or the index is empty or of another dimension, or a query raises; and then within as many turns as there are rows, plus the queries before one raises, plus one |
| `IndexProofs.SearchFinds` | app/vecindex.py:375-409 | whenever it ends it ends with the first k matching rows, or with nothing when the dimension differs, a query raises, or k is negative and nothing is filtered |
| `WindowChunker.ChunkText` | app/vecindex.py:165-199 | stopping at the limit early gives the same windows as packing everything and cutting; none is longer than the maximum |
| `WindowChunker.WindowsJoin` | app/vecindex.py:173-199 | when no paragraph is over-long, joining the windows gives back the paragraphs |
| `WindowChunker.PiecesCover` | app/vecindex.py:180-189 | the pieces of an over-long paragraph, without their overlaps, are the paragraph |
| `WindowChunker.LongStandsAlone` | app/vecindex.py:173-199 | an over-long paragraph is cut into windows of its own; those before and after are as if it were not there |
| `WindowChunker.WindowsAreFull` | app/vecindex.py:173-199 | when no paragraph is over-long, no two neighbouring windows would have fitted one |
| `KeywordMerge.MergeIsFairAndComplete` | app/retrieval.py:134-161 | the merge takes each key once and each source in its own order; in any prefix the two counts differ by at most one unless the source behind has nothing new; if it is shorter than the depth no key is missing |
| `KeywordMerge.MergeSkipsNothing` | app/retrieval.py:134-161 | each hit taken is the best its source still had: all before it there are taken already |
| `KeywordMerge.MergeKeywordSources` | app/retrieval.py:142-161 | the round-robin loop computes that merge |
| `RankFusion.Fuse` | app/retrieval.py:84-114 | the first k places of the ranking with their scores: they fall, and no key left out scores more than one returned |
| `RankFusion.RankingFalls` | app/retrieval.py:110-114 | the ranking holds exactly the keys of both lists; scores fall, and equal scores come in the order of kind, reference and chunk number |
| `RankFusion.ScoreOfFirstRanks` | app/retrieval.py:95-109 | a key scores the sum, over the lists it is in, of weight / (rrf_k + rank of its first hit there) |
| `RankFusion.RankingUnique` | app/retrieval.py:113-113 | there is only one such ranking |
| `RankFusion.SwapInvariant` | app/retrieval.py:95-114 | swapping the two weighted lists changes neither order nor scores |
| `ParentCollapse.CollapseOk` | app/retrieval.py:43-58 | one winner for each parent, its best-ranked chunk, with the number of its matching chunks |
| `ParentCollapse.WinnersKeepTheRanking` | app/retrieval.py:43-58 | the winners are the leading hits of their parents in the order of the list |
| `ParentCollapse.SameParentIff` | app/retrieval.py:35-40 | hits of one kind share a parent exactly when their parent hashes agree, or, if neither has one, their references; kinds without a colon share none |
| `ParentCollapse.CountsConserved` | app/retrieval.py:48-57 | the counts of all winners add up to all hits |
| `ParentCollapse.CollapseResults` | app/retrieval.py:43-58 | the dictionary loop computes that, cut to k |
| `ParentCollapse.Ranked` | app/retrieval.py:117-131 | the first hit of each key, up to the depth but never fewer than one |
| `RankedLists.DedupKeepsFirsts` | app/retrieval.py:117-131 | what is kept are the first hits of their keys, in the order of the list |
| `ParentCollapse.Search` | app/retrieval.py:240-295 | too few results are returned only from the greatest depth, and no shallower depth would have done |
| `ParentCollapse.DepthsDouble` | app/retrieval.py:244-295 | the depth starts at fifty or five times k, doubles each round, and stops at two hundred, the depth asked for, or k if that is more |
| `GraphWalk.CrawlGraph` | scripts/scrape_apple_docs.py:351-389 | no page is requested twice; without the cap fetched and failed pages are exactly those within max_depth edges of the root; the cap is hit exactly when that many pages can be fetched, and then no more are kept |
| `GraphWalk.Wave` | scripts/scrape_apple_docs.py:360-388 | one wave keeps or fails each of its pages and finds exactly their unseen targets |
| `GraphWalk.ChildPaths` | scripts/scrape_apple_docs.py:317-348 | the links of a document in order, each page once, none missed |
| `DocGraph.ReachSettles` | scripts/scrape_apple_docs.py:360-361 | once a wave finds nothing new, nothing is further away |
| `DocGraph.TargetsExactly` | scripts/scrape_apple_docs.py:317-348 | a page leads exactly to the topics below the scope that it names as members or in relationships, the root to any it refers to |
| `RelayProofs.NextKeeps` | app/acquisition/owned_session.py:141-223 | every step of every connection keeps the relay's invariant |
| `RelayProofs.RelayIsSafe` | app/acquisition/owned_session.py:89-223 | in every run a ticket is redeemed at most once, by its own session, within sixty seconds; a result comes from the socket asked; whatever is pending waits for a connected worker and has not ended |
| `RelayProofs.OneUse` | app/acquisition/owned_session.py:102-104 | trying a bridge takes it out, whoever tries |
| `RelayOutcomes.IssueKeepsTheRest` | app/acquisition/owned_session.py:70-100 | issuing a ticket adds it, good for a minute; of the others exactly the expired go, and the oldest of the rest if 1024 are left |
| `RelayOutcomes.RunOrdered` | app/acquisition/owned_session.py:70-125 | in every run the tickets stand in the order of their issue |
| `RelayOutcomes.IssuedThenRedeemed` | app/acquisition/owned_session.py:70-125 | an issued ticket is redeemed exactly by its own session before its minute is over, and is then gone |
| `RelayOutcomes.ScreenshotComesBack` | app/acquisition/owned_session.py:106-167 | a worker's screenshot is redeemed by its own session for the very artifact it sent |
| `RelayOutcomes.LatestWorkerIsAsked` | app/acquisition/owned_session.py:141-208 | a control request goes to the worker that joined last, unless a local context takes it |
| `RelayOutcomes.AnsweredIff` | app/acquisition/owned_session.py:148-167 | a pending request is answered exactly by the connected socket it was sent to, and no other request changes |
| `RelayProofs.OutcomeIsFinal` | app/acquisition/owned_session.py:160-223 | over any run a request that has left the pending map stays out; an answer, a failure or a cancellation never changes, and one that still waits ends cancelled exactly when the wait of its own control loop ends it |
| `RelayProofs.EndedIsGone` | app/acquisition/owned_session.py:214-223 | ending a request removes its pending entry, and cancels it if it waits in the map or for the reply |
| `RelayProofs.ClosingFailsOnlyItsOwn` | app/acquisition/owned_session.py:134-173 | a closing socket fails the requests that wait for it and no others; a newer socket stays registered |
| `RelayProofs.WrongSocketOrphans` | app/acquisition/owned_session.py:160-223 | a reply from another socket of the session removes the entry without answering it; in any run that follows the request is never answered or failed, and is cancelled exactly if its own wait runs out |
| `RelayProofs.OrphanFromTheStart` | app/acquisition/owned_session.py:141-223 | a new relay reaches such an orphan: a second worker of the session joins and answers what the first was asked |
| `OwnedSessionRelay.OwnedSessionTunnel.ExchangeControl` | app/acquisition/owned_session.py:89-100 | sweep, evict and add are the step function, given whether the database consumed the token |
| `SessionGate.ControlNeedsToken` | app/acquisition/owned_session.py:89-104 | in every run of the session tables and the relay under one clock each control connection is accounted for by a control token of its own, of its session, consumed before the session expired, and opens less than sixty seconds after that expiry, plus the time its exchange waited for the database |
| `SessionGate.LateIffIssuedLate` | app/acquisition/owned_session.py:89-104 | an open bridge can open a connection sixty seconds or more after its session's expiry if and only if it was issued after that expiry and is not over |
| `SessionGate.OpensLate` | app/acquisition/owned_session.py:89-104 | a run from a new database and relay that opens one exactly sixty seconds after the expiry |
| `OwnedSessionRelay.OwnedSessionTunnel.ConsumeBridge` | app/acquisition/owned_session.py:102-104 | a bridge opens only for its own session and before its expiry |
| `OwnedSessionRelay.OwnedSessionTunnel.WorkerReplies` | app/acquisition/owned_session.py:148-167 | handling a reply is the step function |
| `OwnedSessionRelay.OwnedSessionTunnel.WorkerLeaves` | app/acquisition/owned_session.py:170-173 | the finally clause is the step function |
| `OwnedSessionRelay.OwnedSessionTunnel.DropPending` | app/acquisition/owned_session.py:134-139 | the loop removes and fails exactly the requests held by the socket |
| `OwnedSessionRelay.OwnedSessionTunnel.ControlSends` | app/acquisition/owned_session.py:187-208 | a request goes to the latest worker of the session unless a local context takes it |
| `OwnedSessionRelay.OwnedSessionTunnel.ControlEnds` | app/acquisition/owned_session.py:214-223 | the wait's own cancellation and the finally clause are the step function; the entry is gone when the request ends |
| `ProxyNodes.ApplyKeeps` | app/acquisition/proxy.py:331-414 | whatever is done to a pool, a node's cooldown is the end of its latest block |
| `ProxyNodes.NotBeforeLastBlockEnds` | app/acquisition/proxy.py:442-453 | a node is never selected before its latest block ends |
| `ProxyNodes.BlockedStaysOut` | app/acquisition/proxy.py:397-405 | with one cooldown length and a clock that does not run backwards, a node blocked at t is never selected before t + cooldown |
| `ProxyNodes.OutUntilRegistered` | app/acquisition/proxy.py:331-369 | a revoked node is never selected again, a blocked or offline one not before it is registered |
| `ProxyNodes.BackIffLatestBlockOver` | app/acquisition/proxy.py:344-405 | after any run registering a node that is not revoked makes it eligible exactly when its latest block is over |
| `ProxyNodes.CutShortIff` | app/acquisition/proxy.py:344-405 | after a run that has come to some time, a block can be cut short by a registration from then on if and only if it ends later than that time and later than the node's latest block does |
| `ProxyNodes.ShorterBlockReleasesEarly` | app/acquisition/proxy.py:344-405 | such a run: blocked at 0 for 300 seconds and at 1 for one second, selected at 2 |
| `ProxyNodes.LeasedIff` | app/acquisition/proxy.py:416-482 | after any run the node a selection hands to a live task is covered by its lease if and only if the task had no live lease, or one on that node under its token |
| `ProxyNodes.SecondChoiceIsNotLeased` | app/acquisition/proxy.py:397-482 | from an empty pool: the leased node is blocked, the task selects again and gets a node its lease does not name |
| `EgressOutcomes.TheLeastLoadedIsPicked` | app/acquisition/proxy.py:442-453 | the node chosen is usable and free; every other such node has more unexpired leases, or as many and a later id; none is chosen exactly if there is none; and the choice is unique |
| `EgressOutcomes.SelectionLeases` | app/acquisition/proxy.py:416-482 | a selection drops expired leases and hands out the node unless the task lost its lease or has no open attempt; it leases the node for two minutes unless the task has a lease, and takes back a lease without an open attempt |
| `EgressOutcomes.FailureDecides` | app/acquisition/proxy.py:380-414 | a failure counts exactly for a known, unrevoked node and a caller that may report on it; a block cools the node down as stated, a transport failure takes it offline exactly at the threshold |
| `EgressOutcomes.FailuresAddUp` | app/acquisition/proxy.py:331-414 | over any run a node's failures are those it had and every one reported since |
| `EgressOutcomes.NextFailureIsTheLast` | app/acquisition/proxy.py:344-414 | a node that has once come to the threshold goes offline at its next transport failure, however often it was registered in between |
| `EgressOutcomes.RegistrationDecides` | app/acquisition/proxy.py:344-369 | exactly unexpired credentials are accepted; a node is active afterwards unless it was revoked, with its cooldown and failures as they were |
| `EgressOutcomes.ConfigurationMerges` | app/acquisition/proxy.py:331-342 | unknown configured nodes become active and never expire; of known ones only the regions change, of revoked ones nothing |
| `EgressOutcomes.UnconfiguredStays` | app/acquisition/proxy.py:331-342 | a node that is not configured stays as it was |
| `EgressOutcomes.ReleaseAndRevokeDecide` | app/acquisition/proxy.py:516-521 | a release drops a lease exactly under its own token; a revocation ends one node |
| `ProxyPoolStore.ProxyPool.MergeConfigured` | app/acquisition/proxy.py:331-342 | configured nodes are inserted active; known ones keep their state |
| `ProxyPoolStore.ProxyPool.Register` | app/acquisition/proxy.py:344-369 | registration revives all but revoked nodes and leaves the cooldown |
| `ProxyPoolStore.ProxyPool.MarkFailure` | app/acquisition/proxy.py:380-414 | a failure counts only for a node that is not revoked and, when fenced, only under the task's live lease |
| `ProxyPoolStore.ProxyPool.Pick` | app/acquisition/proxy.py:442-453 | the least loaded eligible unlocked node, the first id among equals, or none if there is none |
| `ProxyPoolStore.ProxyPool.Select` | app/acquisition/proxy.py:416-482 | selection is the step function; the node returned was eligible |
| `TunnelBudget.NeverOverTheCeiling` | app/egress_agent.py:348-368 | for every interleaving the bytes forwarded plus those accounted in hand equal `used`, which never exceeds the ceiling; each destination got a prefix of its source, all of it if the pump ended with its source, and while the ceiling is not used up everything that was read and is not held |
| `TunnelBudget.NextDrops` | app/egress_agent.py:350-368 | every step that can happen brings its pump nearer to its end |
| `EgressTunnel.ByteBudget.Consume` | app/egress_agent.py:249-253 | allows what is left of the ceiling, at most the size |
| `EgressTunnel.PumpTask.Account` | app/egress_agent.py:362-364 | accounting for a chunk is the step function |
| `EgressTunnel.PumpTask.Forward` | app/egress_agent.py:365-368 | writing and stopping short is the step function |

## Left out

- `QueueRuns.StepKeeps`: the steps do not include the SQL functions of remote workers (worker_api), retry_failures, which submits a new job and adds root tasks to it, and reconcile_job, which rewrites a job's counters from its rows.
- `QueueEffects.ClaimTakesEffectIff`: capabilities, circuit breakers, the origin cooldown and the politeness delay, further conditions of the claim query on tables that are not modelled.
- `QueueOutcomes.CompletionQueuesLinks`: the depth limit and the origin filter are applied to the urls before they arrive here.
- Queue: proxy leases, attempt and event rows.
- `QueueStore.Store.ExpireDue`: the due rows are taken one by one inside the transaction; row locking and SKIP LOCKED are not modelled.
- The blocked_count column of a job, which only reconcile_job writes; the final verdict counts task rows, as the code does.
- Crawl frontier: link extraction, screenshots, indexing and database writes after the crawl; a link list is an argument.
- `ResearchRunner.Manager.SearchPhase`: the searches of a round arrive as one answer for all its queries, so a crash between two of them is a crash before the answer.
- Research: wall-clock deadlines are an arbitrary "expired" answer; the activity log, notes, citations and report texts.
- Router: remote session cancellation in the finally clause, because no adapter returns a remote session id; task cancellation by the event loop; the cost `estimated` flag.
- Live session backends of Firecrawl and Browserbase: a handle map whose close runs once; easy beside the session protocol.
- `AcquisitionLedger.ApplyOk`: decimal arithmetic is real arithmetic.
- `ChunkPacking.ChunksReparse`: the overlap text carried between chunks, and the outer strip of a chunk's text, which can turn an indented first line into a heading or fence.
- Chunking: the regular expressions that classify a line (a line arrives classified), and the unused minimum size.
- URL identity: host and port normalisation, tracking parameters and query sorting; the query's percent-normalisation is `PercentEncoding.Normalize`.
- `VectorIndex.Index.Search`: the KNN prefix is exact and breaks ties the same way in every round; scores are left out.
- `IndexProofs.FiltersAgreeOnAll`: how Python and SQL render a fraction, list or object is an argument.
- `VectorIndex.Index.Upsert`: the statements that write the stamp on the first write do not raise, so the open transaction and the vector table that such a failure leaves behind are not modelled.
- Vector index: the model stamp, malformed JSON metadata, snippets and hashes, and a keyword mirror whose availability changes between processes.
- Retrieval: bridging database rows to chunks, degradation of a failing signal, facet counts.
- `RankFusion.Fuse`: scores are reals, so ties are exact.
- `GraphWalk.CrawlGraph`: a page's answer does not change during the walk; the path part of a url is an argument.
- `OwnedSessionRelay.OwnedSessionTunnel.ExchangeControl`: whether the database consumes the token is an argument here; `SessionGate` makes it the queue's own answer.
- `SessionGate.ControlNeedsToken`: the database clock and the relay's monotonic clock are one clock.
- Relay: frame validation, local execution of actions, and the artifact byte budget of a local context.
- Node pool: endpoint and credential-file validation, the mutual-TLS bridge, and an endpoint already taken by another node.
- Tunnel: CONNECT parsing, address checks, and what a failing write does to the other direction.
- MinHash deduplication, profile encryption, enrollment, storage pruning, schedules, metrics and the HTTP API.

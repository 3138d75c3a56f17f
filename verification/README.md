# eslams-core in Dafny

A verification project for the runner, artifact, output, agent-call, transport
and planning code of eslams-core. It models how matches between untrusted
agents are run and recorded, how the recorded artifact is checked again later,
and the smaller protocols around it, and proves what each of them is for.

`dafny verify dfyconfig.toml` checks everything.

## What is modelled

- **Matches and their certificate.** `Json`, `Arenas` and `Events` hold the data:
  JSON values with Python's and the strict equality, canonical states with their
  digest, trace and replay rows and their projections. `Match` is one pass of the
  runner loop as a function, `Runner` the imperative loop, `Runs` whole runs and
  the artifact they write, `Scoring` what it claims, `Forfeits` who wins by one. `ReplayCheck` is the replay
  validator; `Evidence` writes out what an artifact must show, and `Certificate`
  proves the two equivalent. `Policies` is the table of failure policies that every
  turn is shown to follow. `Completeness` proves that every run passes it; `Sealed` and
  `SealedMoves` prove when hidden moves become visible. `Receipts`, `Reconcile`,
  `ReconcileFaults`, `ReconcileRun` and `RunReconciles` treat provider attempts and
  the official three-way join.
- **Outputs.** `Filesystem` gives names, inodes and hard links with a failure
  possible at every call; `Install` is the transactional installation on it.
  `OutputLock` is the guard protocol as a machine whose steps are the single
  operating-system calls of any number of processes, with failures and crashes;
  `OutputGuard` is the acquiring code run among them; `OutputNames` the
  destination names.
- **Agent calls.** `Deadlines` is the bounded threaded call with quarantine and
  invocation-scoped receipts, over every interleaving; `Attempts` the retry and
  repair loop, `Retrying` the law of its calls; `AgentLedgers` joins its ledger to the runner, and
  `AgentsReconcile` shows which agents always reconcile.
- **Admission and rates.** `Nonces` compares the two replay stores; `Rate` is the
  reservation of provider calls.
- **Transport.** `Base64`, `Pages` and `Sessions`: cursors, pages (with the laws of `PageLaws`), interactive
  steps and their agreement with `core_step`.
- **Tables and plans.** `FileTable`, `Coverage`, `Ordering`, `Shards` and `Usage`.

An arena is an arbitrary record of functions. Its contract, `Arenas.Contract`, is
the only thing assumed of it: states stay well typed and free of timing keys, a
move that applies advances the turn by one, a state that is not terminal has no
outcome, and no two legal actions are equal to Python. Agents are arbitrary
functions of their request, which names the turn. Digests are arbitrary functions;
where a result needs it, it assumes that the particular values it compares do not
collide. `Countdown` is a small arena that meets the contract and plays, and
`RockPaperScissors` a sealed one.

Each method is proved against a function, and the main laws then say what that
function's result must be on the fields of the data, without the function's own helpers.

Three properties one might expect are not what the code has. For each there is an
input where it fails and the exact condition under which it holds: the official
join does not make logical actions distinct
(`Reconcile.OneLogicalActionMayBackTwoMoves`,
`Reconcile.DistinctActionsExactlyWhenReceiptsAre`); an ok receipt can stay behind
without an action when reading the answer fails with an exception other than a
protocol error (`Attempts.OkReceiptWithoutAction`, `Attempts.LedgerOfOneAction`);
`step_session` and `core_step` disagree on a null action, an empty action id and an
empty player (`SessionGaps`, `Sessions.SessionAgreesWithCore`). One holds more
widely than its documentation needs: the nonce stores agree for times in any
order (`Nonces.StoresAnswerTheSame`).

## Model

| member | source | states |
|---|---|---|
| Certificate.AcceptedExactlyWhenARealRun | src/eslams/artifacts.py:1688-1868 | Unless neighbouring rows hold two states with one digest, an artifact passes the replay validator if and only if, read off its own fields, its files agree (readable and hashable rows that carry states, a known arena, the supported version, counts equal to the rows, a score file that says what the last snapshot says, no eligibility claim before the end), there is something to replay or it is promised, and some sequence of states makes every row a real step (the first offered action the record can mean, recomputed exactly, or a marked forfeit into a finished forfeit state) in one unbroken chain that the snapshots show |
| Certificate.AcceptedScoreIsTheLastState | src/eslams/artifacts.py:1913-1949 | In an accepted artifact with moves, a score outcome is the outcome of the finished state the moves lead to, no outcome means that state has none to give, and nothing is claimed eligible before the end |
| Certificate.PreludePassesExactlyWhenSound | src/eslams/artifacts.py:1688-1783 | The validator reports nothing before the rows exactly when the manifest, the score file, the rows and the last snapshot agree, field by field |
| Certificate.NotRecordedExactlyWhenNothingIsPromised | src/eslams/artifacts.py:1715-1745 | The verdict that nothing was recorded is given exactly for readable files that promise no replay and hold no moves, or a move without states |
| Evidence.ScoreComplaints | src/eslams/artifacts.py:1913-1949 | Each complaint about the score file is made exactly when its own condition on the score, the manifest and the last snapshot holds |
| Evidence.FromPayloadDecodes | src/eslams/artifacts.py:1968-1998 | A payload decodes to a state exactly when the eleven fields are there with that state's values, the turn is a non-negative number, id and player are not empty, and a stored digest is the state's own |
| Evidence.ResolveIsFirstMatch | src/eslams/artifacts.py:2001-2008 | A recorded action resolves to the first legal action that Python takes for it |
| Evidence.TransitionsAreSteps | src/eslams/artifacts.py:1715-1720 | The rows that are replayed are the action and forfeit rows, in order |
| Certificate.ResolveFindsFirst | src/eslams/artifacts.py:2001-2008 | The recorded action is resolved to a legal action equal to it in Python's sense, and to itself only when there is none |
| Certificate.ResolveRecordedLegalAction | src/eslams/artifacts.py:2001-2008 | When no two legal actions can be confused, a recorded legal action resolves to itself |
| Certificate.MoveErrorsMeaning | src/eslams/artifacts.py:1784-1868 | The checks on one row report nothing exactly for a recomputed legal move, or a forfeit row into a terminal forfeit state, whose next snapshot matches |
| Certificate.CleanRowPasses | src/eslams/artifacts.py:1784-1868 | A row without errors is a real step between two decoded states and, unless digests collide, starts from the state handed on |
| ReplayCheck.ValidateDeterministicReplay | src/eslams/artifacts.py:1688-1868 | The validator's loop over transition rows, with its early exits and its prelude, returns exactly the specified verdict and error list |
| ReplayCheck.CollectTransitions | src/eslams/artifacts.py:1715-1720 | The action and forfeit rows are collected in order; a row whose event type cannot be hashed stops the validator |
| Completeness.EveryRunIsAccepted | src/eslams/runner.py:231-558 | For every arena meeting its contract, every agent and every mix of failure policies, the artifact written by a finished run is verified by the replay validator without one error |
| Policies.TurnFollowsThePolicies | src/eslams/runner.py:231-552 | Every turn of every run follows a decision table over reply, policies and offered actions: one of the fourteen interruption classes, or any failure under the invalid-match policy, ends the match with the record untouched; under the forfeit policy with one forfeit row into a finished state naming the player; under fallback the resignation or first legal action is played if there is one and it applies; an illegal action likewise; the counters, reason codes and reason are those of the table |
| Policies.LegalActionIsPlayed | src/eslams/runner.py:359-552 | A legal action given in time that applies is played as it is, whatever the policies, and leaves validity and reason alone |
| Policies.ClassOfTheCall | src/eslams/runner.py:876-884 | The failure class of a reply without an action: a timeout for a late call unless its provider error already says so, else the class of its ending, and agent_error where none is named |
| Policies.InterruptionsAreTheFourteen | src/eslams/runner.py:300-307 | Exactly fourteen failure classes are interruptions that no policy overrides |
| Completeness.ScoringValidity | src/eslams/runner.py:225-558 | At the end of every run the validity flag, the absent reason and the empty reason-code list are equivalent; a valid match is terminal, has no errors, illegal actions or fallbacks, and as many logical actions as trace events |
| Completeness.TurnKeepsTheRecord | src/eslams/runner.py:231-558 | One pass of the loop keeps trace and replay a real run through the states so far, and a pass that ends the match falsifies all three validity flags |
| Completeness.ForfeitStateIsSound | src/eslams/runner.py:1552-1600 | A forfeit state is terminal, one turn later, carries a forfeit outcome and survives being written and read back |
| Completeness.RowIsReadable | src/eslams/runner.py:1264-1331 | The auditor row the runner writes is read back with its states, header and kind as written |
| Forfeits.WinnerAmongMany | src/eslams/runner.py:1552-1611 | With more than two seats the declared winner is exactly the seat, other than the forfeiting one, that scores strictly above all the remaining seats |
| Forfeits.WinnerOfTwo | src/eslams/runner.py:1552-1600 | With two seats the other one wins, one point to nothing |
| Forfeits.ForfeiterNeverWins | src/eslams/runner.py:1552-1611 | The forfeiting seat is never the winner and ends with score zero |
| Forfeits.UniqueLeaderIsStrictBest | src/eslams/runner.py:1603-1611 | A unique leader is found exactly when one seat is strictly best |
| Forfeits.ForfeitStateIs | src/eslams/runner.py:1552-1600 | Every field of a forfeit state: one turn later, finished, nothing left to play, the scores, winner and outcome fields that two or more seats call for, the public state amended, all else as before |
| Scoring.CaseValidExactlyWhen | src/eslams/runner.py:555-585 | A receipt ends up valid for its case exactly when its action was applied, the match counts, the case has a name and every provider seat has an ok receipt and only ok receipts that vouch for its model; a truncated run does not count; nothing else changes |
| Scoring.ArtifactClaims | src/eslams/artifacts.py:1688-1868 | The artifact claims the validity of the match, eligibility only for a valid one, and counts of its own rows |
| Runner.RunMatch | src/eslams/runner.py:173-664 | The imperative match loop, with its truncation check and final stamping of receipts, computes exactly the specified run for every agent |
| Runner.PlayTurn | src/eslams/runner.py:231-552 | One pass of the loop body, with its exits, computes exactly the specified step |
| Runner.Act | src/eslams/runner.py:359-552 | Fallback, legality, rejection and application of an action, in the order of the source |
| Runner.RejectMatch | src/eslams/runner.py:385-434 | A rejected action records the reason, invalidates the match and, under the forfeit policy only, appends one forfeit row and moves to the forfeit state |
| Runner.CountFallback | src/eslams/runner.py:365-378 | A fallback is counted for its player, invalidates the match and adds its reason code once |
| Runner.LegalAction | src/eslams/runner.py:379-464 | An illegal action is replaced by a legal failure action only under the fallback policy; otherwise the match ends |
| Runner.ApplyAndRecord | src/eslams/runner.py:465-552 | An action that applies is recorded in trace, replay, history and counters; one that fails to apply ends the match |
| Turns.TurnShape | src/eslams/runner.py:231-552 | Every pass raises exactly for a ledger with gaps or repeated event ids, or breaks after at most one forfeit row, or records exactly one legal move |
| LogicalIds.LogicalIdsDiffer | src/eslams/runner.py:233 | Two turns of one run never share a logical action id, whatever colons the player ids contain |
| AgentLedgers.ProviderLedgersNeverAbortARun | src/eslams/runner.py:742-811 | A match between agents whose receipts come from the attempt loop is never aborted by them: it fails to finish only if a final receipt breaks the receipt contract |
| AgentLedgers.LedgerIsTaken | src/eslams/runner.py:742-811 | The ledger of the turn to play is accepted, because its indexes are 1..n and its event ids were never issued before |
| Runs.TurnMovesTheState | src/eslams/runner.py:231-552 | A turn that continues leaves a good state one turn later, so the loop ends within the turn limit |
| Events.ProjectionsOfOneMove | src/eslams/events.py:27-49 | The auditor projection holds both states and the true action; the public one withholds both states and a sealed action |
| Arenas.ToJsonInjective | src/eslams/state.py:62-77 | Equal written states mean equal states |
| Arenas.StateSurvivesExactlyWhenTimingFree | src/eslams/artifacts.py:1957-1990 | A state written to the auditor trace can be read back with its digest exactly when no field uses a timing key at any depth, unless cleaning it makes digests collide |
| Arenas.LegalIsMembership | src/eslams/arena.py:64-68 | An action is legal exactly when it is one of the listed actions, types included |
| Arenas.FailureActionIsLegalOrNull | src/eslams/arena.py:70-74 | The failure action is legal, or null exactly where nothing is offered |
| Json.SameJsonIsIdentity | src/eslams/arena.py:112-125 | The strict comparison of actions is equality of JSON values: booleans, integers and floats never match one another |
| Json.PyEqIsEqualityOfNumbers | src/eslams/artifacts.py:2001-2008 | Python's equality of JSON values is equality up to the kind of a number, at every depth |
| Json.CanonKeepsExactlyTimingFree | src/eslams/artifacts.py:1443-1452 | Canonical cleaning leaves a value unchanged exactly when it has no timing key |
| Json.CanonIsTimingFree | src/eslams/artifacts.py:1443-1452 | Canonical cleaning leaves no timing key at any depth |
| Sealed.SealedMoveVisibility | src/eslams/runner.py:1089-1093 | At every turn of every run an agent is shown all past moves or all but the last; no later request hides what one showed; and the public trace and replay rows of a move show its action exactly when the next request does |
| SealedMoves.WithheldExactlyWhileCommitted | src/eslams/arena.py:28-43 | After every move of every run: while some seat's private object holds a value under the arena's commitment key the next request leaves out exactly that move and the public and agent-visible rows carry null; otherwise they show it; judge and auditor rows always do |
| RockPaperScissors.FirstMoveIsSealed | src/eslams/arenas/matrix_games.py:12-93 | In rock-paper-scissors, whichever choice the first player makes, the run goes on to a second request that does not show it, and neither do the public rows |
| RockPaperScissors.RpsMeetsTheContract | src/eslams/arenas/matrix_games.py:12-93 | The sealed two-seat arena meets the contract assumed of arenas, in every good state it is asked to move from |
| Sealed.RequestIsOfTheTurn | src/eslams/runner.py:1061-1108 | An agent is asked for its own turn and seat, with the actions the state lists for it and the digest of the state |
| Sealed.VisibleIsAllButASealedLast | src/eslams/arena.py:28-43 | A request withholds at most the latest move, and only while it is sealed |
| Receipts.EnrichAttemptReceipts | src/eslams/runner.py:721-811 | A ledger is taken exactly when its indexes are 1..n and its event ids are new and distinct; each row then carries its index, event id, parent and turn identity |
| Receipts.RowOfAnAttempt | src/eslams/runner.py:742-811 | Every field of the row written for an attempt: number, event id, turn identity, kind, parent link, status, and nothing applied or scored yet |
| Receipts.MarkSuccessfulAttemptApplied | src/eslams/runner.py:851-858 | The in-place scan from the end marks one row as the specification says and leaves every other row alone |
| Receipts.MarkAppliedTouchesTheLastOkAttempt | src/eslams/runner.py:851-858 | Exactly the last ok attempt of the logical action is marked |
| Receipts.AppliedEventIdIsTheMarkedOne | src/eslams/runner.py:861-873 | The event id put into trace and replay is the one of the marked attempt |
| Reconcile.ReconcileOfficialActions | src/eslams/artifacts.py:1150-1259 | The three-way join over trace, replay and receipts reports exactly the specified errors |
| Reconcile.NoErrorsExactlyWhenOneToOne | src/eslams/artifacts.py:1150-1259 | Nothing is reported if and only if the counts agree, every receipt is valid and uniquely named, trace and replay have the same join keys, and the seat's provider rows pair one to one with its applied ok receipts |
| ReconcileFaults.EachErrorHasItsCause | src/eslams/artifacts.py:1150-1259 | The join raises exactly for a claimed replay key that is a list or an object; otherwise each of its four errors is reported if and only if one of its causes is there, every cause written out on the rows of the three files |
| ReconcileFaults.IndexHoldsTheFirst | src/eslams/artifacts.py:1187-1199 | The index by event id holds the first receipt of each event |
| Reconcile.OneLogicalActionMayBackTwoMoves | src/eslams/artifacts.py:1194-1240 | A concrete ledger that reconciles although two moves claim one logical action: the join does not check that logical actions differ |
| Reconcile.DistinctActionsExactlyWhenReceiptsAre | src/eslams/artifacts.py:1194-1240 | Given no errors, every move has a logical action of its own exactly when no two applied ok receipts of the seat share one |
| RunReconciles.ValidRunReconcilesExactlyWhenEveryActionHasAnOkReceipt | src/eslams/runner.py:479-527 | For a finished, scoring-valid run with a case id and verified identity, reconciling its own files reports nothing if and only if every logical action of the seat has an ok receipt under its own id, which is also when the seat's two action counters agree |
| RunReconciles.CountersSayOk | src/eslams/runner.py:479-494 | A provider seat's applied and logical action counts agree exactly when each of its logical actions has an ok receipt |
| ReconcileRun.TurnMarksItsOwn | src/eslams/runner.py:479-494 | A provider turn marks one of its own receipts exactly when one of them is ok, and reports that receipt's event id; any other turn marks none |
| AgentsReconcile.OkAnswersAlwaysReconcile | src/eslams/runner.py:479-527 | An agent that never returns an action without an ok receipt reconciles in every finished, scoring-valid run |
| AgentsReconcile.AttemptLoopAlwaysReconciles | src/eslams/agents.py:578-613 | Agents built on the attempt loop, with a reader that raises protocol errors only, reconcile in every such run |
| RunReconciles.PlayKeepsTheLedger | src/eslams/runner.py:231-552 | Through every run receipts, provider rows and counters describe one common list of moves |
| Install.InstallOutputs | src/eslams/artifacts.py:643-684 | On success every destination holds its new content, no old file is left as a backup, and existing archives kept their names at every call; after a failure with working rollback every destination is bound to exactly what it was, or absent; even a failing rollback leaves all old content reachable; with no failing call the result is success exactly for installable outputs |
| Install.InstallOne | src/eslams/artifacts.py:649-667 | One output ends untouched, backed up, linked or installed, as the two bookkeeping lists say, and no other name changes |
| Install.InstallAll | src/eslams/artifacts.py:648-667 | The forward loop keeps every output in a known phase and every existing archive continuously available |
| Install.RollBack | src/eslams/artifacts.py:668-680 | Rollback restores every destination, or raises only because a call failed during it, with all old content reachable |
| Install.PutBack | src/eslams/artifacts.py:674-679 | A backup is put back whether its destination is gone or is a hard link to the same inode, in which case the rename does nothing and the backup name is removed |
| Install.CleanUp | src/eslams/artifacts.py:681-684 | After success backups are dropped; only old trees whose removal failed may stay |
| Install.OthersStay | src/eslams/artifacts.py:648-680 | A call on the paths of one output leaves every other output in its phase |
| OutputLock.MutualExclusion | src/eslams/output_lock.py:91-105 | In every interleaving of calls, failures and crashes at most one process is inside the lock of a guard |
| OutputLock.GuardKeepsItsInode | src/eslams/output_lock.py:73-82 | A guard name, once linked, keeps its inode through every continuation |
| OutputLock.NeverHalfWritten | src/eslams/output_lock.py:62-75 | A guard that was absent or complete at the start is complete whenever its name is visible |
| OutputLock.AdmitsExactlyWhenAbsentOrComplete | src/eslams/output_lock.py:35-59 | Some run admits a process to a guard if and only if the guard was absent or complete: a legacy guard admits nobody |
| OutputLock.CrashFreesItsGuards | src/eslams/output_lock.py:20-53 | A crash frees the guards of the dead process at once, and any idle process can take them |
| OutputLock.StepKeepsInv | src/eslams/output_lock.py:35-105 | Every single call of any process keeps the protocol invariant |
| OutputLock.FilesFootprint | src/eslams/output_lock.py:56-87 | One call publishes or writes nothing but the caller's own setup file |
| OutputLock.LocksFootprint | src/eslams/output_lock.py:20-53 | One call never takes, drops or replaces a lock held by another process |
| OutputGuard.System.Acquire | src/eslams/output_lock.py:56-87 | The acquiring code, with arbitrary calls of other processes between its own and any call failing, succeeds exactly when it holds the guard afterwards, and every state it goes through is one the interleaved machine reaches |
| OutputGuard.System.WriteMarker | src/eslams/output_lock.py:66-72 | The write loop fills the setup file with the whole marker whatever part each write takes, or raises |
| OutputGuard.System.Publish | src/eslams/output_lock.py:73-82 | A prepared file is linked under the guard name, or the file somebody else linked first is opened instead |
| OutputNames.WritersExclude | src/eslams/artifacts.py:626-641 | A directory-only writer and an archive writer of one output exclude each other |
| OutputNames.SuffixIsTheExtension | src/eslams/artifacts.py:701-716 | A name is its stem and its suffix, and the suffix is what starts at a last dot that is neither the first nor the last character |
| OutputNames.GuardsOfAWriter | src/eslams/artifacts.py:626-641 | An archive writer holds the guards of both names of its output, any other writer that of the directory |
| OutputNames.SpellingsShareTheGuard | src/eslams/artifacts.py:701-716 | The archive spelling of an output leads to the same directory, and so to the same guard, for every name except exactly ".eslams.d" |
| Deadlines.CallTable.Admit | src/eslams/deadlines.py:121-128 | A call is admitted exactly when its agent has no unfinished call and a permit is free, and then takes both |
| Deadlines.CallTable.Release | src/eslams/deadlines.py:140-153 | The end of a worker, or a thread that cannot start, gives back the entry and the permit |
| Deadlines.CallTable.Available | src/eslams/deadlines.py:115-118 | An agent is available exactly when it has no unfinished call |
| Deadlines.ReceiptFields.Begin | src/eslams/agents.py:425-438 | A call opens an empty batch for its invocation, or for an object of its own when it runs outside any |
| Deadlines.ReceiptFields.Remember | src/eslams/agents.py:629-637 | A receipt is appended to the ledger and published into the open batch, but never into that of another invocation |
| Deadlines.ReceiptFields.ReplaceLast | src/eslams/agents.py:639-647 | The last receipt is replaced, and published under the same condition |
| Deadlines.ReceiptFields.TakeSnapshot | src/eslams/agents.py:615-619 | A snapshot is the batch of that invocation, or empty |
| Deadlines.PermitsAndWorkersAddUp | src/eslams/deadlines.py:121-153 | In every interleaving free permits and live workers add up to 32, so the semaphore is never released above its bound |
| Deadlines.PermitReleasedExactlyOnce | src/eslams/deadlines.py:121-153 | Each invocation takes at most one permit and gives it back exactly once, when its worker ends |
| Deadlines.OneLiveWorkerPerAgent | src/eslams/deadlines.py:121-128 | No agent ever has two live workers |
| Deadlines.AdmittedExactlyWhenFree | src/eslams/deadlines.py:115-128 | A caller gets a thread if and only if no worker of its agent is alive and fewer than 32 are; a refused caller sees no receipts |
| Deadlines.RefusedExactlyWhileBusy | src/eslams/deadlines.py:115-118 | The check before a call refuses exactly while a worker of the agent is alive, and changes no entry, worker or receipt |
| Deadlines.OnlyATimeoutLeavesAWorker | src/eslams/deadlines.py:121-177 | In every interleaving a call that returned, was refused or could not start has no worker left: only a caller that gave up leaves one behind |
| Deadlines.LaunchStartsOrUndoes | src/eslams/deadlines.py:121-177 | An admitted call runs under the entry and permit it took once its thread starts, and gives both back at once when the thread cannot start; before that nothing acts |
| Deadlines.ReceiptsReachTheirCallerOnly | src/eslams/agents.py:615-647 | In every reachable state a worker's receipt is appended to, or replaces the last of, its own invocation's snapshot and changes no other |
| Deadlines.LateWorkerIsQuarantined | src/eslams/deadlines.py:115-128 | After a timeout every call on the agent is refused until the late worker ends |
| Deadlines.SnapshotIsOwnReceipts | src/eslams/agents.py:615-647 | A snapshot for an invocation holds all of its own receipts in attempt order, or nothing once another call has started on the agent |
| Deadlines.StepKeepsInv | src/eslams/deadlines.py:115-177 | Every step of any caller or worker keeps the table, the permits and the receipt batches consistent |
| Attempts.Act | src/eslams/agents.py:436-613 | From the policy conflict and the missing key to the nested retry and repair loops, the call ends with the specified outcome, ledger and number of provider calls, and its batch is that ledger |
| Retrying.EachCallDecidesTheNext | src/eslams/agents.py:436-613 | A conflicting output bound, a missing key or a negative repair setting ends the action before any call; otherwise a call is followed by another exactly when it was a permitted 429 rate rejection without accepted work while retries of its round are left and the sleep does not raise, or an unreadable answer while repair rounds are left; the last call dictates the ending, and every row tells its call's number, outcome, kind and report |
| Attempts.CallUntilAnswered | src/eslams/agents.py:500-577 | The inner loop repeats safe rejections up to the limit and stops at the first answer or other failure |
| Attempts.CallsAreBounded | src/eslams/agents.py:491-577 | At most (1 + repairs) * (1 + retries) provider calls are made for one action |
| Attempts.LedgerOfOneAction | src/eslams/agents.py:491-613 | The ledger's indexes are exactly 1..n; every call but the last was refused with status 429 and left no trace of accepted work, or its answer could not be read; an ok receipt is unique and last, and exists exactly when an action was returned or the answer's reader failed unexpectedly |
| Attempts.OkExactlyWhenActed | src/eslams/agents.py:578-613 | If the reader raises protocol errors only, an ok receipt exists exactly when an action is returned |
| Attempts.OkReceiptWithoutAction | src/eslams/agents.py:571-591 | A run of one call that leaves an ok receipt and returns no action, because reading the answer fails with another exception than a protocol error |
| Attempts.LedgerIsGapFree | src/eslams/runner.py:742-811 | The runner never refuses such a ledger for its indexes |
| Nonces.MemoryStore.ClaimNonce | src/eslams/nonce_store.py:43-52 | A claim prunes the entries in place and answers as specified |
| Nonces.SqliteStore.ClaimNonce | src/eslams/nonce_store.py:71-96 | A claim works on a transaction that a capacity error rolls back, pruning included; when the database fails nothing is admitted or changed |
| Nonces.StoresAnswerTheSame | src/eslams/nonce_store.py:43-96 | Over any sequence of claims, with times in any order, the two stores give the same answers and never exceed the maximum |
| Nonces.StoresHoldTheSame | src/eslams/nonce_store.py:43-96 | The two stores hold the same entries after any claims |
| Nonces.FullMeansNothingExpired | src/eslams/nonce_store.py:46-50 | A store that is full after pruning had nothing to prune, which is why the rollback cannot be observed |
| Nonces.EntriesAreLiveClaims | src/eslams/nonce_store.py:43-52 | The store holds exactly the nonces of accepted claims that no valid claim time has passed since, with their expiries |
| Nonces.EveryAnswerByTheHistory | src/eslams/nonce_store.py:21-96 | Read off the history alone, both stores answer: invalid for a nonce not of 1 to 256 characters or an expiry before the claim time; else replay for a nonce still held; else full when the maximum of nonces is held; else fresh |
| Nonces.FreshExactlyWhenUnseenAndRoom | src/eslams/nonce_store.py:43-52 | A claim is accepted exactly when it is well formed, no live accepted claim has its nonce, and there is room |
| Nonces.ReacceptedOnlyAfterExpiry | src/eslams/nonce_store.py:43-52 | A nonce is accepted again only if some valid claim after the first had a time past its expiry |
| Nonces.ReacceptedLate | src/eslams/nonce_store.py:43-52 | With times that never fall, the second acceptance itself is later than the first expiry |
| Rate.Limiter.ReserveSlot | src/eslams/agents.py:1475-1492 | A slot is the later of now and the key's reservation; it is refused, changing nothing, at or past the deadline; no limit means no slot and no change |
| Rate.SlotsAreSpaced | src/eslams/agents.py:1483-1489 | Successive slots of one key are at least one interval apart, whatever the arrival times |
| Rate.NextSlotLiesBeforeTheDeadline | src/eslams/agents.py:1475-1492 | After any requests the next slot of a key is the later of now and sixty seconds over the limit past its last slot; it is granted exactly when it lies before the deadline, and other keys are not touched |
| Rate.NoMinuteHoldsMore | src/eslams/agents.py:1475-1492 | No half-open minute holds more than the limit of slots of one key |
| Rate.BurstIsSpread | src/eslams/agents.py:1475-1492 | The limit is reached: that many requests at once fill the first minute, evenly spread |
| Rate.RefusalConsumesNothing | src/eslams/agents.py:1486-1488 | A refused request leaves all other grants as they would be without it |
| Base64.RoundTrip | src/eslams/arena_transport.py:805-841 | Unpadded base64url text decodes to the bytes it was made from |
| Base64.EncodedShape | src/eslams/arena_transport.py:805-811 | The text never contains the cursor's separator and is at most a third longer |
| Pages.CursorRoundTrip | src/eslams/arena_transport.py:805-841 | A cursor decodes to its own offset under its own scope and is refused under any other |
| Pages.AcceptedCursorIsSigned | src/eslams/arena_transport.py:820-841 | An accepted cursor carries the keyed hash of its payload and the scope it is used under |
| Pages.PagesYieldEveryRowOnce | src/eslams/arena_transport.py:750-790 | Following next_cursor from the start, with any page sizes, ends and yields every matching row once and in order, in full pages but for the last |
| Pages.StaleCursorIsRefused | src/eslams/arena_transport.py:768-773 | A cursor of one state, player, query and action list opens no page of another |
| PageLaws.CursorTakenExactlyWhenSigned | src/eslams/arena_transport.py:814-841 | A cursor yields an offset if and only if it is at most 1024 characters long and consists of the prefix, a payload that binds this scope and offset, and the keyed hash of that payload |
| PageLaws.PageHolds | src/eslams/arena_transport.py:750-790 | A page exists exactly for an offset inside the result; it holds the next rows that mention the query in one of six fields, counts all and matching rows, and has a cursor to its end exactly when more is left |
| Pages.KeepCounts | src/eslams/arena_transport.py:793-802 | Filtering keeps every matching row as often as it occurs and no other |
| Pages.KeepConcat | src/eslams/arena_transport.py:793-802 | Filtering keeps the order of the rows |
| Pages.BoundedLimit | src/eslams/arena_transport.py:740-747 | The page size is the allowed one, 1 to 200, nearest to the requested number, and 50 when the request is no number |
| Sessions.SessionIsAnArenaRun | src/eslams/arena_transport.py:409-574 | Over any calls the session's state is the arena played with the accepted actions, each legal when it was made, with the session record reattached after each |
| Sessions.StepIsLegalOrStutters | src/eslams/arena_transport.py:409-574 | A call either applies one legal action or leaves the state unchanged |
| Sessions.TerminalIsAbsorbing | src/eslams/arena_transport.py:463-474 | A terminal session never moves again |
| Sessions.SessionKeepsItsRecord | src/eslams/arena_transport.py:723-725 | The session record stays attached, states stay well typed and the turn counts the accepted actions |
| Sessions.DenotedIsTheLastWithTheToken | src/eslams/arena_transport.py:844-845 | A token denotes the last legal action that carries it |
| Sessions.SessionAgreesWithCore | src/eslams/core_contract.py:131-160 | For every player, token and form of the request, step_session and core_step take the same calls and reach states that differ at most in the session record, exactly unless, before the end, an empty player leaves core_step with an action to play, an empty action id makes the two play differently, or the token denotes a null action the arena would take |
| Sessions.CoreRequestResolves | src/eslams/core_contract.py:550-559 | A token request leads core_step to the action the token denotes, except that an empty action id leads to the request object itself, if that is legal |
| Sessions.SessionPlaysExactly | src/eslams/arena_transport.py:409-574 | A session plays an action if and only if its game is open, the caller is the player to move, and the action is the last listed one with the caller's token, not null, and one the arena applies; the other verdicts have their own conditions |
| Sessions.RequestIsLookedUp | src/eslams/core_contract.py:550-559 | A request object is read as its action id in either spelling, else its token, else its payload, else its compact form, else itself, and means the last legal action with that token or the legal action equal to it |
| Sessions.CorePlaysExactly | src/eslams/core_contract.py:131-160 | core_step reaches a state if and only if the game is open, the actor is absent, empty or the player to move, and the arena applies what the request means to that state |
| SessionGaps.NullMoveSplits | src/eslams/arena_transport.py:490-504 | An arena and state where a null move is refused by the session and played by core_step |
| SessionGaps.EmptyTokenSplits | src/eslams/core_contract.py:550-559 | An arena and state where a move named by the empty string is played by the session and not found by core_step |
| SessionGaps.EmptyPlayerSplits | src/eslams/core_contract.py:131-145 | An arena and state where an empty player is refused by the session and stands for the active player in core_step |
| Sessions.CoercedExactlyWhenLegal | src/eslams/model_actions.py:97-110 | An answer is coerced exactly when it is the token of a legal action or equal to one, and only to a legal action |
| FileTable.FileEntries | src/eslams/artifacts.py:2065-2072 | The table lists every hashed payload file with its digest and size, sorted by path |
| FileTable.ValidateFileTable | src/eslams/artifacts.py:933-973 | The check of a table reports exactly the specified errors in order |
| FileTable.ValidateUnhashed | src/eslams/artifacts.py:976-1009 | The unhashed table is read entry by entry with its own errors |
| FileTable.AcceptedExactlyWhenExact | src/eslams/artifacts.py:933-1009 | Nothing is reported if and only if every listed file is present as hashed and listed once, every payload file is listed, and the artifact id is the digest of the sorted table |
| FileTable.MadeTableIsAccepted | src/eslams/artifacts.py:2065-2081 | The table made for any directory of portably named files is accepted, whatever manifest and signatures are added |
| FileTable.ArtifactIdIsACommitment | src/eslams/artifacts.py:970-972 | Two accepted directories with one artifact id have the same hashed payload paths with the same contents, unless digests collide on the two tables or their files |
| Coverage.ErrorsAreDeserved | src/eslams/artifacts.py:933-1009 | Each error of a table is reported if and only if the fault it names is there, every fault written out on the entries, the directory and the manifest |
| Coverage.NoErrorsListEveryCoveredFile | src/eslams/artifacts.py:933-973 | Without an error every file of the directory is listed with its digest, except manifest.json, timings/timings.json and what lies under signatures/ |
| Coverage.TableRecordsTheCoveredFiles | src/eslams/artifacts.py:2065-2072 | The table that is made records exactly the covered files, each once, with digest and size |
| Coverage.OneIdOneEvidence | src/eslams/artifacts.py:966-972 | Two directories that pass under one artifact id hold the same covered files with the same bytes, unless digests collide |
| Coverage.EvidenceIsCovered | src/eslams/artifacts.py:2065-2072 | The score file, the auditor trace and the replay events are covered; signatures and timings are not |
| Ordering.LessEqIsByCodePoint | src/eslams/planning.py:190 | Strings are ordered by the first code point that differs, a prefix before its extensions |
| Ordering.OrderedIsUnique | src/eslams/planning.py:190 | A list of strings has only one sorted order |
| Shards.MakeShards | src/eslams/planning.py:182-202 | Shards are made exactly for an allowed count, each the stride of the sorted ids with its own index and count |
| Shards.StridesPartition | src/eslams/planning.py:190-201 | The strides partition the ids: each case is in exactly one shard |
| Shards.SizesDifferByAtMostOne | src/eslams/planning.py:190-201 | Shard sizes never increase with the index and differ by at most one |
| Shards.ValidatePlan | src/eslams/planning.py:143-174 | A plan is accepted exactly when its schema and kind are known, its shards are well formed without a repeated case, and its hash covers its other fields |
| Shards.PlanPassesExactlyWhen | src/eslams/planning.py:143-174 | A plan is accepted if and only if its schema and kind are the known ones, each shard spells its index, the count, its size and nonempty ids, no id is listed twice, the expected count is the number of ids and the hash is that of the other fields |
| Shards.OneHashOnePlan | src/eslams/planning.py:143-174 | Two accepted plans with one hash have the same shards and the same other fields, unless digests collide |
| Shards.PlanCaseIds | src/eslams/eval_runtime.py:104-115 | The case ids of a plan are all listed ids, sorted |
| Shards.BuiltPlanIsValid | src/eslams/planning.py:143-202 | For distinct nonempty ids a built and hashed plan is accepted and lists exactly the sorted input |
| Usage.InputIsConserved | src/eslams/agents.py:2054-2217 | Clean usage splits its input into uncached, read and written tokens with nothing clipped away |
| Usage.TotalIsConserved | src/eslams/agents.py:2272-2298 | Clean usage with both counts has the total of input, output and separately billed reasoning |
| Usage.CachedNeverExceedsSummedInput | src/eslams/agents.py:2054-2124 | For Anthropic and Bedrock the error of more cached than input tokens is unreachable |
| Usage.EachClassAtItsOwnRate | src/eslams/agents.py:2338-2419 | One more token of a class adds exactly that class's rate, or the rate that stands in for one not configured; reasoning inside the output adds nothing |
| Usage.PricedExactlyWhenClear | src/eslams/agents.py:2338-2419 | A cost is estimated exactly for priced, clean usage with both counts and unambiguous reasoning, and no tokens cost nothing |
| Usage.TotalComesFrom | src/eslams/agents.py:2272-2298 | A reported total is kept and any other total is the sum of what is billed; a contradiction and an unclear inclusion are reported exactly when there is one |
| Usage.GeminiCounts | src/eslams/agents.py:2022-2053 | Gemini's counts come from its prompt, tool prompt, candidate, cache and thought counters, with reasoning beside the output |
| Usage.AnthropicCounts | src/eslams/agents.py:2054-2092 | Anthropic's input is the sum of its three input counters that are there |
| Usage.BedrockCounts | src/eslams/agents.py:2093-2124 | So is Bedrock's, under its own names |
| Usage.OpenCounts | src/eslams/agents.py:2125-2217 | The other adapters read either spelling, and details under either name |
| Usage.OpenRefusals | src/eslams/agents.py:2125-2217 | A counter of theirs is refused exactly when it is there and is no natural number |
| Usage.ExcessIsReported | src/eslams/agents.py:2125-2217 | Cached tokens beyond the input, and included reasoning beyond the output, are reported exactly when they occur |
| Usage.CostFollowsTheTotal | src/eslams/agents.py:2338-2419 | No token is billed twice or left out: the unrounded cost lies between the lowest and the highest effective rate times the total |
| Usage.UniformRateBillsTheTotal | src/eslams/agents.py:2338-2419 | At one uniform rate the unrounded cost is that rate times the total tokens |

## Left out

- Concrete arenas other than rock-paper-scissors, contracts, the provider registry and the Krutrim adapter: an arena and a provider are arbitrary functions here.
- HTTP, wire formats, prompts and text extraction: a provider call is an oracle that answers, times out, fails or breaks.
- SHA-256, HMAC, Ed25519, ZIP and JSON text: digests are functions that do not collide where stated; a decoded JSON value is the value that was written.
- NaN, infinities, negative zero and float rounding: numbers are integers and reals, and costs are unrounded.
- Wall-clock fields, telemetry and timing side files. Of the receipt contract it is assumed that dropping `latency_ms` makes no valid receipt invalid.
- Rows the replay validator and the reconciliation never read: agent input/output, error rows, provider status, display frames, usage aggregates.
- The SIGALRM path of a call, the polling of a cancellation inside waits, and interrupts between a filesystem call and its bookkeeping.
- Python's `list(value)` on something that is no list and the iteration order of a score object: the arena parameters `listOf` and `seatOrder`.
- Filesystem.Disk.CheckDestination: the symbolic link, working-directory, Git and manifest tests of src/eslams/artifacts.py:605-623 are one predicate that says which directories may be replaced.
- Install.InstallOutputs: sources are distinct private files or trees and no output lies inside another, as the staging code arranges; removal of a tree that fails is one event that leaves a damaged tree.
- OutputLock.MutualExclusion: setup file names and their unlinking are not modelled, only their inodes; nobody unlinks a guard, as the module demands; Windows locking is not modelled.
- OutputGuard.System.Publish: the setup name, its unlinking and the flush of its content are not modelled, only the inode that is linked.
- Nonces.SqliteStore.ClaimNonce: one store object stands for all processes sharing the file, and a failing database is one event before any effect.
- Deadlines.SnapshotIsOwnReceipts: the interleaved calls run inside an invocation; calls outside any are covered by the methods of `Deadlines.ReceiptFields` only.
- Attempts.Act: receipts keep only the fields the runner reads, and the parsing of the request and the making of prompts are left out.
- Rate.NoMinuteHoldsMore: one constant limit per key; the sleep after the reservation and the concurrency semaphore are left out.
- Pages.PagesYieldEveryRowOnce: cursors of the result set must fit 1024 characters, which the reader enforces; legacy numeric cursors are read but are not part of the iteration.
- Sessions.SessionAgreesWithCore: the deadline, size and version checks of `core_step` and the display data of both entry points are left out; envelopes are valid.
- FileTable.ValidateFileTable: a directory is its regular files, so links and unreadable members, which stop the source, are left out.
- FileTable.ValidateUnhashed: likewise, confinement of a path is a test of the path alone.
- Usage.InputIsConserved: a usage that is no object, and the Krutrim branch, are left out.
- Artifact members other than the auditor trace, replay, manifest and score; signatures; validation profiles.
- Runs.IdentityVerified: an identity source that is a list or an object, which would stop the source, counts as not trusted.
- Python recursion limits and integer text limits.

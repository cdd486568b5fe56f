# Spend governance: a verified model

An agent asks to spend; a policy engine decides, reserves budget, pays, and
writes everything to a hash-chained ledger whose head is notarised on a public
chain. This project models that core and proves what it promises over whole
runs. `dafny verify dfyconfig.toml` checks it all.

How the parts fit together:

- **The ledger and its anchors.** `Ledger` (the chain, its verifier, the
  recomputed head, edits and deletions), `Anchor` (notes and verdicts),
  `Notary` (anchoring interleaved with everything else, on a chain that others
  write to as well), `Tamper` (the demo edits and their undo log), `Verdicts`
  (what makes the report say "tampered"). SHA-256 is a
  parameter `H: string -> Digest`, any function at all to 64 bar-free
  characters. Results that need it to be injective are stated as "equal, or here
  are the two texts that collide": `Ledger.FindCollision` computes them.
- **The reservation store.** `Store` gives each storage operation as one atomic
  step on a database value; `View` proves that the table is the replay of the
  ledger; `Limits` proves the daily cap and the rate limit over every run;
  `Timeline` says what the text comparisons decide in terms of instants, and
  `Tolerance` what the cap test decides in dollars and cents.
- **Threads.** `Threads` interleaves any number of threads statement by
  statement under one write lock, with the three reads that the code makes
  before it holds that lock; `Statements` and `Sweep` take the transactions
  apart, `Interleave` and `LateSweep` say what the interleavings are worth,
  `LateReads` gives the runs in which an early read goes wrong, and `Rates` the
  rate limit over threads and over decision runs.
- **The decision machine.** `Engine` models signed requests, payments with every
  outcome, holds that are labelled after they are reserved, restarts, wipes and a
  policy that changes between steps. `Provenance` proves where every approval
  comes from, `Settlement` what each decision moves, `Holds` and `LateLabel` when
  the cap and the single approval hold and how they fail, `Stranded` which
  reservations no payment will resolve, `Replays` that a signed request reserves
  once.
- **The code in its own form.** `Database.Sqlite`, `Gateway.Endpoints`,
  `Station.Notarizer`, `Identity.ReplayGuard`, `PolicyFile.PolicyStore` and the
  loops of `CallParams` and `Company` update state in place, loop over rows and
  leave early, as the source does. Each is proved equal to the step the
  theorems are about. The endpoints and `anchor_now` are cut where other calls
  can get in between; `Gateway.Endpoints.Valid` and `Station.Notarizer.Valid` say
  that the objects' state *is* the state of a run, so every theorem about runs
  holds of them.
- **Exact components.** `Json` (canonical encoding and its reader), `Clock`
  (calendar and ISO text), `Text`, `Identity` (signed text, replay guard),
  `PolicyFile`, `CallParams`, `Company`, `FloatMargin`; `KnownAnswers` pins the
  texts that others read by fixed samples.

Money is a whole number of quanta of 2^-1074 dollars, in which every finite
double is exact; times are whole microseconds since year 1. What rounding does
to the cap test is `FloatMargin`.

## Where the code and its comments part

- `verify_anchor` (common/anchor.py:212-291) reads a note back from the public
  indexer but never looks at who posted it. After any run, one transaction from
  any account makes any valid ledger "verified" (`Notary.ForeignNoteVerifies`). A
  confirmed anchor pins history exactly when it records a head the honest ledger
  had (`Notary.PinnedIffReached`), and one whose transaction `anchor_now` sent
  always does (`Notary.VerifiedPinsHistory`) -- a condition on the sender that a
  caller can check and the code does not.
- `compute_entry_hash` (policy_engine/storage.py:226-232) argues that the
  separator is safe because every field before the payload is free of bars and
  the payload is last. The code puts `prev_hash` last, which is harmless; but the
  premise is one that a tamperer breaks: when a payload has a bar in it, moving
  the text up to that bar into the event's type changes no hash, no recomputed
  head and no verdict (`Ledger.BarredTypeShifts`, `Anchor.BarShiftUnseen`). The
  engine writes such payloads, for one in the denial of an agent whose name has a
  bar (`Notary.DenialCanBeShifted`). `Ledger.LinkInjective` gives the exact
  condition.
- `finalize` (policy_engine/storage.py:607-643) does not test the row's state.
  `Limits.FinalizeMoves` says exactly which calls raise a total. The engine makes
  such a call: `spend` reserves a hold in one transaction and labels it in a
  second (policy_engine/app.py:960-990), and if the hold was rejected in between,
  the label revives it (`LateLabel.TwiceTheCap` ends at twice the cap from the
  empty database); if it was released and paid in between, it can be released
  and paid again (`LateLabel.OneRequestPaidTwice`, likewise). Those are the only
  ways: `Holds.GuardedIffNever` and `Holds.RunsStayWithinCap` for the cap,
  `LateLabel.ApprovedOnceIff` for the single approval.
- `reset` counts the rows, and `reap_stale_reservations` selects them, before
  either holds the write lock (policy_engine/storage.py:171-174, 722-724). A reset
  may record a count that neither order of it and another transaction gives
  (`LateReads.MiscountedReset`), though nothing else shows it
  (`Interleave.CountsAside`). A sweep may deny a row that was approved in the
  meantime (`LateReads.ApprovedThenAbandoned`). Three different conditions say
  when it does no harm: it does what the sequential sweep does exactly when its
  selection is current (`LateSweep.SequentialIff`), it leaves every table the
  replay of its ledger exactly when each selected row is still there and carries
  no transaction (`LateSweep.AlwaysReplaysIff`), and it spares what was resolved
  exactly when each selected row is gone, pending or abandoned already
  (`LateSweep.SweepSparesIff`).
- A restart abandons reservations older than the outbound timeout, on the ground
  that a younger one may still be paid for (policy_engine/storage.py:156-159).
  Nothing pays for it after a restart: it stays pending and counts until a later
  restart finds it old enough, and only such rows are pending without a payment
  (`Stranded.PendingIff`).
- The signed text (common/identity.py:49-73) is ambiguous exactly when the
  second nonce has a bar in it (`Identity.MessageInjective`); then one signature
  is accepted under two keys (`Replays.AbsorbedNonceReplays`).
- The replay guard (common/identity.py:90-124) refuses a signed request for ever
  only if it was not dated ahead of the clock (`Identity.ReplayableIffAhead`), and
  only until the process restarts (`Replays.RestartForgets`): a request captured
  before is inside its window after, although the comment on the memory
  (common/identity.py:42-44) sees nothing there to protect.
- `spend` promises one consistent view of the policy
  (policy_engine/app.py:855-858), but what it holds is the cached dictionary that
  an edit changes in place: `Snapshot.TornIff` says exactly when a request passes
  that the policy permitted neither before nor after the edit.
- `update_agent` and its siblings change the cached dictionary before they write
  (policy_engine/policy_store.py:73-125), so a write that fails is served all the
  same (`PolicyFile.FailedWriteShows`).
- `anchor_now` looks for an anchor already at the head (common/anchor.py:119-125).
  In an honest run that branch is never taken, because recording an anchor
  appends an event of its own (`Station.HeadPast`).

## Model

| member | source | states |
|---|---|---|
| Ledger.LinkInjective | policy_engine/storage.py:222-233 | if an event without bars and any other event hash the same text, they follow the same predecessor at the same seq, and agree in every field exactly when the other event has no bars either |
| Ledger.BarredTypeShifts | policy_engine/storage.py:226-232 | for any valid chain and any row whose payload has a bar: rewriting that row's type up to the bar keeps the chain valid and every recomputed head as it was, and is a different row |
| Anchor.BarShiftUnseen | common/anchor.py:212-319 | and so it changes no verdict, whatever the anchors and whatever the chain answers |
| Json.DumpsShowsBars | policy_engine/storage.py:211-219 | a bar in any text member of a payload is a bar in its canonical text |
| Notary.DenialCanBeShifted | policy_engine/storage.py:447-486 | the denial of an agent whose name has a bar is an event of an honest ledger whose row can afterwards be changed with no verdict changing |
| Ledger.PayloadChangesLink | policy_engine/storage.py:222-233 | a changed payload always changes the text that is hashed |
| Ledger.CommonHead | policy_engine/storage.py:384-403 | two ledgers with one recomputed head: either two texts with one hash are exhibited, or below that head the second repeats the unbarred first row by row exactly where its own rows are free of bars |
| Ledger.CollisionFound | policy_engine/storage.py:384-403 | whatever the backward search from a common head returns really is a collision |
| Ledger.CommonRow | policy_engine/storage.py:384-403 | each single row below a common head that no collision explains is the original row, when it is free of bars |
| Ledger.ExtendValid | policy_engine/storage.py:236-267 | on a valid chain, one more event keeps it valid if and only if it is the true successor of the head |
| Ledger.HashAtSeqValid | policy_engine/storage.py:384-403 | on a valid chain the recomputed head at a seq is the hash stored there, and there is none outside the chain |
| Ledger.OneExplanation | policy_engine/storage.py:300-381 | a table has exactly one verdict: intact, or one fault |
| Ledger.LeastBadSeq | policy_engine/storage.py:300-381 | the fault reported is at the least bad seq |
| Ledger.LazyEdit | policy_engine/storage.py:300-381 | a payload edited under its old hash is reported at that seq, and goes unnoticed if and only if the two texts collide |
| Ledger.CompetentEdit | policy_engine/storage.py:746-782 | a payload edited with its hash recomputed is reported at the next seq; at the head the table verifies and only the hash recomputed at that seq differs; each exactly when no collision |
| Ledger.InteriorDeletion | policy_engine/storage.py:339-348 | deleting rows from the middle is reported at the first survivor with the exact number of missing rows |
| Ledger.TailTruncation | policy_engine/storage.py:384-403 | a cut tail verifies, and no anchor past the cut finds its seq |
| Anchor.NoteRoundTrip | common/anchor.py:82-96 | parsing a built note gives back seq and hash, for every integer seq and bar-free hash |
| Anchor.PreservedIffHead | common/anchor.py:236-247 | a valid chain preserves an honest ledger, up to barred rows or an exhibited collision, if and only if the hash recomputed at its end is its head |
| Anchor.ConfirmedMeansPreserved | common/anchor.py:212-291 | if an anchor is confirmed against a note built from an honest ledger, that ledger is a prefix of the present one unless the present rows carry bars, or a collision is exhibited |
| Anchor.VerifiedMeansPreserved | common/anchor.py:294-319 | a "verified" report has no failed anchor and a confirmed one, and every confirmed anchor preserves the ledger its note came from |
| Notary.AnchorsHold | common/anchor.py:99-155 | in every run, with any operations between reading the head and recording, every anchor's hash is recomputed unchanged, anchors climb strictly, and the newest is also the highest and below the head |
| Notary.HonestVerdict | common/anchor.py:294-319 | in an honest run the verdict is never "tampered", however slow the indexer and whatever it says of other accounts' transactions: it is "verified" exactly when it answers for a recent anchor |
| Notary.NotesAreOfHistory | common/anchor.py:108-147 | every note that anchor_now ever put on the chain, recorded or not, is the head of a prefix of the honest ledger, whatever others post |
| Notary.PinnedIffReached | common/anchor.py:212-291 | a confirmed anchor pins the honest ledger at its seq if and only if it records a head that ledger had, whoever posted its note |
| Notary.VerifiedPinsHistory | common/anchor.py:294-319 | end to end: after an honest run, on a chain that any account writes to, the database may be replaced altogether; if the report on it is "verified", every confirmed anchor whose transaction anchor_now sent pins a prefix of the honest ledger, and any other exactly when it records one of its heads |
| Notary.ForeignNoteVerifies | common/anchor.py:180-209 | the input that fails: one foreign transaction with the note of any valid ledger, and one anchor row for it, make the verdict on that ledger "verified", and pin nothing when it ends elsewhere than the honest one did |
| Notary.MaxIsLast | policy_engine/storage.py:428-439 | the latest anchor by id and the maximum seq are the same anchor when anchors climb |
| Station.Notarizer.ReadHead | common/anchor.py:108-127 | the switch, the lock and the ledger decide, in this order, whether a call goes on; if it does it has taken the lock and the head of the moment |
| Station.Notarizer.CheckLatest | common/anchor.py:119-125 | the look at the latest anchor, as a step of the protocol |
| Station.Notarizer.Send | common/anchor.py:127-144 | a transaction sent carries the note of the head that was read; every failure gives the lock back and writes nothing |
| Station.Notarizer.Finish | common/anchor.py:146-148 | however the ledger has grown since, the anchor recorded is of the head that was read |
| Station.Notarizer.AnchorNow | common/anchor.py:99-155 | the whole call undisturbed: disabled, busy, nothing to anchor exactly on an empty ledger, an error, or an anchor of the head, with the chain and the lock as each leaves them |
| Station.Notarizer.VerifyAnchor | common/anchor.py:212-291 | the local and on-chain comparison, filled in step by step, is the one the verdict theorems use |
| Station.Notarizer.IntegrityReport | common/anchor.py:294-319 | "tampered" exactly when a row is out of place, unlinked or rewritten, or one of the last anchors recorded, as many as asked for, finds its hash missing or another or is contradicted by the note on chain; "verified" exactly when it is not, and the indexer was asked and answered for one of them; else "unanchored" |
| Verdicts.VerdictMeaning | common/anchor.py:294-319 | for any table, anchors and indexer: "tampered" if and only if the chain is invalid or an anchor is contradicted, "verified" if and only if it is not and the chain answered for one |
| Verdicts.LazyEditTampered | common/anchor.py:294-319 | a payload edited under its old hash makes the report "tampered", whatever the anchors, or a collision is at hand |
| Verdicts.CompetentEditTampered | common/anchor.py:294-319 | so does a payload edited with its hash recomputed, below the head always, at the head when an anchor was taken there |
| Verdicts.ButtonTampered | policy_engine/storage.py:746-803 | the demo's own edit, whenever its fragment says something new, makes the report "tampered" under the same condition, or two texts collide; and restoring gives back the very rows |
| Verdicts.DeletionTampered | common/anchor.py:294-319 | rows deleted from the middle make the report "tampered", and so does a tail cut off below a recent anchor |
| Verdicts.NoteMeaning | common/anchor.py:86-96 | a text is read as a note of a seq and a hash if and only if it is the prefix, a number to Python, and the hash, three fields joined by bars |
| Verdicts.PyIntMeaning | common/anchor.py:93-96 | a text is a number to Python if and only if it is white space, a sign or none, digits with single underscores between them, and white space |
| Notary.NewestMeaning | policy_engine/storage.py:422-425 | the anchors asked for are the last ones recorded, as many as there are up to the limit |
| Station.HeadPast | common/anchor.py:119-125 | in an honest run the head, and any head that was read, is past the newest anchor |
| Tamper.RestoreIsExact | policy_engine/storage.py:746-803 | after any edits of any seqs, repeated or not, with appends in between, restoring gives the original rows followed by the appended ones, column for column |
| Tamper.RestoredVerifies | policy_engine/storage.py:785-803 | the restored ledger verifies if and only if no append happened while the head of the moment carried a changed hash |
| Tamper.UndoAppend | policy_engine/storage.py:798-802 | undoing edits commutes with appending an event they do not name |
| Tamper.DoctoredMeaning | policy_engine/storage.py:769-772 | the doctored payload is the canonical text of an object in which each member of the fragment wins and every other member is as it was; a payload that is no object is refused |
| Tamper.TamperAt | policy_engine/storage.py:762-782 | the edit rewrites that one row as a competent forger would, and backs up what it overwrote |
| Limits.LedgerGrows | policy_engine/storage.py:236-267 | in every state of every run the ledger verifies, has no bars in timestamps and types, and no earlier event has changed |
| Limits.StepTable | policy_engine/storage.py:447-643 | what each operation may do to the table: which rows it adds, removes or changes, and in which columns |
| Limits.WipedStaysWiped | policy_engine/storage.py:607-643 | an id handed out and wiped never comes back, and every later finalize of it aborts |
| Limits.FinalizeMoves | policy_engine/storage.py:607-643 | a finalize moves the counted total by the difference of two weights, and raises it exactly when it revives money that had stopped counting |
| Limits.LateFinalizeDoublesSpend | policy_engine/storage.py:607-643 | a run of accepted store calls that ends at twice the cap, through a finalize of a denied row to approved or back to awaiting approval |
| Limits.StepSpent | policy_engine/storage.py:563-602 | no guarded step raises an agent's total of a day except an admission, which leaves it less than two billionths of a dollar above its own cap |
| Limits.CapHolds | policy_engine/storage.py:538-602 | in every state of every guarded run, an agent's counted total of a UTC day is less than two billionths of a dollar above the cap of its latest admission of that day, however caps moved |
| Limits.AdmissionsCounted | policy_engine/storage.py:546-561 | the admissions of a run in a window are never more than the rows the store counts there |
| Limits.EveryWindowWithinLimit | policy_engine/storage.py:546-561 | every half-open window anywhere on the time line holds at most L admissions between resets, for a clock that may run backwards |
| Rates.EveryMinuteWithinLimit | policy_engine/app.py:909-951 | over any decision run whose policies never allow the agent more than L a minute, every half-open minute holds at most L of its admissions between wipes, for any clock |
| Rates.EveryWindowOverThreads | policy_engine/storage.py:546-561 | under any interleaving, every half-open window holds at most L admissions between resets when the committed reservations were all tested against limits up to L over that length |
| Timeline.AdmittedInTime | policy_engine/storage.py:538-575 | in every state of every run, try_reserve admits if and only if fewer of the agent's rows than the limit were stamped inside the window and its undenied amounts of the UTC day leave room, counted over instants and not over texts; when both are exceeded the rate limit is what it answers, with the count; an admission leaves the day less than two billionths of a dollar above the cap |
| Tolerance.BillionthOfADollar | policy_engine/storage.py:563-575 | the tolerance is the double nearest to a billionth of a dollar: 53 significant bits, and off by at most half a unit in the last place |
| Tolerance.AdmitsWholeCents | policy_engine/storage.py:538-575 | when every amount and the cap are within one rounding of whole cents and the cap is at most 1000 dollars, try_reserve admits exactly when the rate limit allows it and the cents of the day and of the request fit in the cap's |
| Timeline.ReapInTime | policy_engine/storage.py:144-199 | in every state of every sequential run a restart denies exactly the pending rows at least as old as the timeout, leaves every other row and column alone, logs one event for each such row, and never fails |
| Timeline.CountIsRecent | policy_engine/storage.py:546-561 | the counting query over text timestamps is the number of rows younger than the window |
| Timeline.SpentIsDayTotal | policy_engine/storage.py:563-572 | the sum over a ten-character prefix is the sum over the UTC day |
| View.TableIsReplay | policy_engine/storage.py:447-486 | in every state of every run the request table equals the fold of the ledger's reserved, decided and reset events |
| View.SummaryFromLedger | policy_engine/storage.py:728-739 | per-agent approved totals and counts from the table equal those recomputed from the ledger alone |
| View.SummaryMeaning | policy_engine/storage.py:728-739 | the total is the sum over the agent's approved rows and nothing else, the counts are the numbers of its approved and of its denied rows |
| View.FinalizeMirrored | policy_engine/storage.py:607-643 | a finalize of a missing row aborts, and any other keeps table and ledger in step |
| View.ReadBackReserved | policy_engine/storage.py:582-602 | the stored text of a reservation event decodes to exactly the row it announces |
| View.ReadBackDecided | policy_engine/storage.py:627-643 | the stored text of a decision event decodes to exactly the row it settles |
| View.StepMirrored | policy_engine/storage.py:714-725 | each operation, a reset included, keeps the table the replay of the ledger |
| Threads.Serializable | policy_engine/storage.py:236-274 | under any interleaving of any number of threads, statement by statement, the committed database is what the committed transactions give one after another, a reset with the count and a sweep with the selection it had read; its ledger is gap-free and verifies |
| Statements.AppliesInTwo | policy_engine/storage.py:607-643 | each atomic operation is its change to a table followed by the event that reads the row back, or a rollback |
| LateSweep.SequentialIff | policy_engine/storage.py:171-199 | under any interleaving, the database after each committed transaction is what the operations so far give, each taken whole, if and only if every committed sweep had a selection still current as it took the lock |
| Interleave.CurrentSerializes | policy_engine/storage.py:171-199 | such an interleaving is a run of plain operations, so that what is proved of those holds of it |
| LateSweep.AlwaysReplaysIff | policy_engine/storage.py:171-199 | under any interleaving, the committed table is the replay of its ledger in every state if and only if every committed sweep found each row it had selected still there, the same call, and without a transaction |
| LateSweep.SweepMirrorsIff | policy_engine/storage.py:171-199 | a sweep leaves a table in step with its ledger so exactly when each selected row is still there, the same call, and without a transaction |
| LateSweep.SweepSparesIff | policy_engine/storage.py:171-199 | a sweep changes no row resolved by then exactly when each selected row is gone, still pending, or abandoned already |
| LateSweep.ReadySweepSpares | policy_engine/storage.py:171-199 | in every state of an interleaving a thread about to sweep gets through, and spares what is resolved exactly then |
| Interleave.SweepExactIff | policy_engine/storage.py:171-199 | on a table in step with its ledger, a sweep does what the sequential operation does if and only if its selection lists the same entries |
| Interleave.LateSweepDenies | policy_engine/storage.py:171-199 | selected, then paid and approved, then swept: on any table the row is denied with its transaction on it and no longer replays |
| LateReads.LateSweepRuns | policy_engine/storage.py:171-199 | the same as a run of two threads, statement by statement, from any state with one old pending row and both threads free |
| LateReads.ApprovedThenAbandoned | policy_engine/storage.py:171-199 | and from the empty database: fifteen statements of two threads reserve a request, select it, approve it and deny it |
| Sweep.SweepIsReap | policy_engine/storage.py:171-199 | select first and resolve after is the one pass over the rows when nothing changed in between |
| Sweep.SweepsAlikeIff | policy_engine/storage.py:171-199 | two selections sweep a database alike if and only if they list the same entries in the same order |
| Interleave.CountsAside | policy_engine/storage.py:722-725 | with every reset's count taken afresh the committed transactions give the same tables and the same events but for those counts and the hashes |
| Interleave.CountRightIff | policy_engine/storage.py:722-725 | the count that a reset records is right if and only if the table has the same size when it takes the lock as when it was read, whatever the other threads did in between |
| LateReads.MiscountedReset | policy_engine/storage.py:722-725 | the run that fails, from any state with two threads free: a count, another thread's denial, and the reset, which deletes a row more than it records; neither order of the two transactions, each counting for itself, writes that ledger |
| Interleave.CapHoldsOverThreads | policy_engine/storage.py:538-602 | under any interleaving, late sweeps included, the committed table of a guarded history keeps each agent's day less than two billionths of a dollar above the cap of its latest admission |
| Threads.UnlockedAppend | policy_engine/storage.py:270-274 | an append that read the head without the lock writes the true successor if the head has not moved, and otherwise aborts on the seq key and changes nothing |
| Threads.InsertIsAppend | policy_engine/storage.py:66-73 | inserting by primary key a successor of some former head is an append exactly when its key is free |
| Threads.AlwaysInv | policy_engine/storage.py:533-604 | in every interleaving only the lock holder has a working copy, and what it has checked still holds of it |
| Database.Sqlite.AppendEventLocked | policy_engine/storage.py:236-267 | the imperative append is the model's append of the canonical payload, and nothing else changes |
| Database.Sqlite.VerifyChain | policy_engine/storage.py:300-381 | the loop returns the table's one verdict, with the count and the head |
| Database.Sqlite.HashAt | policy_engine/storage.py:384-403 | the loop recomputes the head at a seq, or finds none |
| Database.Sqlite.RecordAnchor | policy_engine/storage.py:411-419 | one anchor row with a new id, and its audit.anchored event of that seq, hash and transaction |
| Database.Sqlite.LogRequest | policy_engine/storage.py:447-486 | one row with a new id and every column as given, and its event |
| Database.Sqlite.TryReserve | policy_engine/storage.py:489-604 | rate limit first, then cap, on the rows inside the lock; a refusal changes nothing, an admission adds one row with a new id, every column as asked, and its event |
| Database.Sqlite.Finalize | policy_engine/storage.py:607-643 | that row alone takes the decision, reason and transaction given, and its event is written with it; or, when the row is missing, nothing changes |
| Database.Sqlite.ReapStale | policy_engine/storage.py:144-199 | rows are selected, then resolved one by one with their events, all or none; the result is the sequential reap |
| Database.Sqlite.Select | policy_engine/storage.py:171-174 | the loop selects the pending rows not after the cutoff, in order |
| Database.Sqlite.Reset | policy_engine/storage.py:714-725 | the table is emptied, the ledger gains one audit.reset event with the number of rows there were, anchors and ids stay |
| Database.Sqlite.UnanchoredEventCount | policy_engine/storage.py:433-439 | the distance from the highest anchored seq to the head, never negative |
| Database.Sqlite.TamperWithEvent | policy_engine/storage.py:746-782 | the demo edit with its backup, or nothing when the seq or payload is unusable |
| Database.Sqlite.RestoreTampered | policy_engine/storage.py:785-803 | the loop puts every backup back, newest first, as the undo function does |
| Engine.GateSound | policy_engine/app.py:853-951 | a request that reaches the store comes from a known, unfrozen agent allowed this action, with a valid signature dated within 60 seconds whose nonce was not used in the last 60 and is remembered from then on, within its per-request limit, with resolved arguments; and it is to be held exactly when there is a threshold and the amount exceeds it |
| Engine.GateExact | policy_engine/app.py:853-951 | both ways: each refusal code is given exactly when its condition is the first that fails, with the amount and arguments recorded, and a request goes on exactly when none does |
| Engine.SignatureMeaning | policy_engine/app.py:875-896 | the signature check comes out well if and only if the signature is valid, dated within 60 seconds of the clock, and its nonce was not accepted in the last 60; only then is a nonce remembered |
| Provenance.AlwaysKept | policy_engine/app.py:753-1085 | every state of every decision run: the storage operations committed so far give its database, unresolved rows look like their reservations, each payment under way matches an unresolved row or a wiped one, and so does each hold still to be labelled |
| Engine.Writes | policy_engine/storage.py:582-643 | which operation can write which event: an inserting one only an admitted reservation, an approving one only a finalize to approved, each with the row's own view |
| Provenance.ApprovalsAreAuthorised | policy_engine/app.py:853-1067 | every approved decision in the ledger repeats an earlier reservation, made by a request with an accepted signature under a policy that permitted it within its limit and held it exactly when the amount exceeded a threshold; and if it was held, an approval.granted event stands in between, given while the agent was present, unfrozen and allowed |
| Provenance.LargeApprovalsGranted | policy_engine/app.py:939-951 | in numbers: over every run, an approved amount above the threshold that the policy had for the agent when the request was reserved has an operator's grant between reservation and approval |
| Holds.GuardedIffNever | policy_engine/app.py:960-990 | a decision run makes a finalize that revives money if and only if some label finds its hold denied |
| Holds.RunsStayWithinCap | policy_engine/app.py:960-1002 | every decision run keeps the replayed table in every state, and where no label finds its hold denied each day's total is less than two billionths of a dollar above the cap of its latest admission |
| LateLabel.RejectedHoldRevives | policy_engine/app.py:960-990 | reserve a hold, reject it before its label, admit a second request, label: both amounts count |
| LateLabel.TwiceTheCap | policy_engine/app.py:960-990 | such a run of five of the engine's calls from the empty database, at twice the only cap there is |
| Settlement.LabelMoves | policy_engine/app.py:979-990 | a label moves its day's total exactly when it finds the hold denied, by the whole amount |
| Settlement.PaymentResolves | policy_engine/app.py:753-849 | whatever becomes of a payment, its row ends resolved: approved exactly for an ok response, settlement details or not, else denied; the counted total moves by zero or by minus the amount |
| Stranded.PendingIff | policy_engine/storage.py:144-199 | in every state of every decision run, each pending row was made by a request of the run, found too young by every restart since, and has its payment under way if and only if there was none |
| Stranded.RestartStrands | policy_engine/storage.py:144-199 | a restart drops every payment under way and denies exactly the pending rows that are old enough; a younger one is left pending, unpaid and counting |
| Settlement.StraightThrough | policy_engine/app.py:960-1002 | with any actions but a restart between a request and the end of its payment: the day's total rises by the amount at the request, and at the end stays or falls by it as the payment went; only a wipe in between removes the row |
| Settlement.RefusalReturnsBudget | policy_engine/app.py:1022-1085 | a rejection, and a release that policy blocks, deny the hold and give back exactly its amount |
| Holds.ApprovedOnce | policy_engine/app.py:753-849 | in every run in which no label finds its hold approved, no request is approved twice, and an approved one has no payment under way |
| LateLabel.ApprovedOnceIff | policy_engine/app.py:753-849 | no label of a run finds its hold approved if and only if, however the run goes on from any of its states without another label, no request is ever approved twice |
| LateLabel.OnceIffNever | policy_engine/app.py:753-849 | ... and if and only if in every state of the run each approved request has its row approved and no payment under way |
| LateLabel.ApprovedHoldPaidTwice | policy_engine/app.py:960-990 | where a label finds its hold approved and a policy permits the call by then, an operator can release it again, and it is paid and approved again |
| LateLabel.PaidBeforeLabel | policy_engine/app.py:960-990 | a hold released and paid for before its label is one that the label finds approved |
| LateLabel.OneRequestPaidTwice | policy_engine/app.py:960-990 | from the empty database: one request, held, released and paid for before its label, then labelled, released and paid for again |
| Replays.OneReservation | policy_engine/app.py:882-896 | over any run with a forward clock and no restart in between, a request whose signature was accepted and that was not dated ahead, or any later one with its agent and nonce and no later date, is refused and reserves nothing |
| Replays.OneTextOnce | common/identity.py:90-116 | one signed text with bar-free agent, action and nonce is accepted at most once between restarts |
| Replays.RestartForgets | common/identity.py:42-46 | after a restart any validly signed request inside the window is accepted, whatever was accepted before |
| Replays.AbsorbedNonceReplays | common/identity.py:70-73 | the signed text of a request with arguments is accepted a second time under a nonce that takes the arguments in |
| Snapshot.TornIff | policy_engine/app.py:855-858 | a request passes the freeze and the allowed actions though the policy permitted it neither before nor after an edit, if and only if the edit lands between those reads, freezes the agent and allows it the action |
| Snapshot.TornRequestProceeds | policy_engine/app.py:898-951 | such a request goes on to reserve |
| Gateway.Endpoints.Deny | policy_engine/app.py:655-668 | one denied row of the agent, as the request's step of the decision run |
| Gateway.Endpoints.ExecutePayment | policy_engine/app.py:753-849 | at any time after its reservation, every way out finalizes that row alone, as approved if and only if the response was ok, and answers with the outcome's code; if the row was wiped meanwhile nothing changes |
| Gateway.Endpoints.BeginSpend | policy_engine/app.py:853-978 | the checks in their order are a step of the decision run: one row is added, of the request's action, amount, arguments and time, denied with the code of the first check that fails, or reserved for an agent and action the policy permits: held exactly when there is a threshold and the amount exceeds it, else paying; no row is ever left pending but by a payment under way |
| Gateway.Endpoints.LabelHold | policy_engine/app.py:979-990 | the label is a step of its own, of whatever has become of the row |
| Gateway.Endpoints.Spend | policy_engine/app.py:853-1002 | the whole call undisturbed: exactly one row is added, of the decision answered, never left pending; approved only when paid and permitted |
| Gateway.Endpoints.BeginApproval | policy_engine/app.py:1006-1066 | acts exactly on holds; if the policy of now permits the call an approval.granted event with the stored arguments is written and a payment of that row begins, otherwise an approval.blocked event with the reason, and that row alone is denied |
| Gateway.Endpoints.ApproveHold | policy_engine/app.py:1006-1069 | the whole call undisturbed: approved if and only if the policy of now permits the call and the payment was ok; the row keeps its call, every other row is untouched |
| Gateway.Endpoints.RejectHold | policy_engine/app.py:1073-1085 | acts exactly on holds, writes an approval.rejected event of the row and its agent, denies the one row and touches no other |
| Gateway.FinalizeResolves | policy_engine/storage.py:607-643 | in every state a finalize fails exactly when its row is gone, and otherwise changes that row's verdict alone |
| Gateway.HeldParses | policy_engine/app.py:1055-1061 | in every state the stored arguments of a row decode |
| CallParams.ResolveParams | policy_engine/app.py:671-709 | the loop over the schema answers as ResolveMeaning says |
| CallParams.ResolveMeaning | policy_engine/app.py:671-709 | a supplied non-empty text is the value, and a non-empty default is exactly when there is none; a name not declared, a value longer than its limit, a required parameter without a value are the errors, the first in schema order; otherwise every declared name with a value is passed with it, and nothing else |
| Json.LoadsDumps | policy_engine/storage.py:211-219 | every value decodes from its canonical text, escapes, surrogate pairs and the texts of doubles included |
| Json.DumpsInjective | policy_engine/storage.py:211-219 | two values have one canonical text exactly when they are equal |
| Json.SortedKeysInOrder | policy_engine/storage.py:219 | keys are written in strictly increasing order |
| Identity.MessageInjective | common/identity.py:49-73 | two requests with bar-free agents and actions, the first nonce bar-free, that sign one text agree in agent, action, amount and time; and in nonce and arguments if and only if the second nonce is bar-free |
| Identity.BarredNonceAbsorbs | common/identity.py:70-73 | with a bar in the nonce they need not: arguments can hide in it |
| Identity.HeldParamsReadBack | policy_engine/app.py:1055-1061 | the arguments a hold is paid with are the ones it was reserved with |
| Identity.ReplayGuard.PruneExpired | common/identity.py:119-124 | deletes exactly the nonces older than the window |
| Identity.ReplayGuard.VerifyRequest | common/identity.py:90-116 | stale exactly outside 60 seconds either way, then bad signature, then replayed exactly for a nonce remembered within 60 seconds, else accepted; only an accepted nonce is added, none inside its minute is forgotten, no remembered time changes, and a request that is stale or badly signed changes nothing |
| Identity.KeptAreRecent | common/identity.py:119-124 | after each prune every remembered nonce is at most 60 seconds old |
| Identity.Remembered | common/identity.py:110-114 | an accepted nonce is remembered until the clock is past its window |
| Identity.OnlyAccepted | common/identity.py:106-116 | over any calls, every remembered nonce was accepted, at the time it is remembered with |
| Identity.ReplayedIff | common/identity.py:90-116 | over any calls a request is refused as replayed only if its nonce was accepted within 60 seconds; with a forward clock a timely, validly signed request is refused so if and only if it was, and accepted if and only if it was not |
| Identity.NoReplay | common/identity.py:90-116 | with a clock that never runs backwards, a request not dated ahead of its first acceptance is never accepted again |
| Identity.ReplayableIffAhead | common/identity.py:97-124 | a request just accepted can be accepted again later if and only if it was dated ahead of the clock |
| PolicyFile.FillIdempotent | policy_engine/policy_store.py:60-62 | filling in defaults twice is filling them in once |
| PolicyFile.FillMeaning | policy_engine/policy_store.py:40-62 | the served policy is the file with each of the three controls that an agent leaves out at its permissive default, and nothing else added, dropped or changed |
| PolicyFile.ChangedMeaning | policy_engine/policy_store.py:73-125 | an accepted edit makes exactly this of the policy: each field given as given, each other field of the agent as it was, or, for a new agent, its display name and the permissive defaults; or the agent gone; every other agent untouched |
| PolicyFile.PolicyStore.GetPolicy | policy_engine/policy_store.py:47-70 | reloads exactly when the time differs from the cached one, keeping the last good policy when the file does not parse |
| PolicyFile.PolicyStore.EditPolicy | policy_engine/policy_store.py:73-125 | accepted if and only if the write succeeds and the edit is of editable fields, of an agent that is there or, to add one, is not; then cache and file both hold the policy as ChangedMeaning says; otherwise the file is left alone |
| PolicyFile.PolicyStore.WriteLocked | policy_engine/policy_store.py:128-139 | file and cache agree after a write, and on the time |
| PolicyFile.ServesTheFile | policy_engine/policy_store.py:47-139 | across any edits through the process, at whatever times, and any noticed edits behind it, readers get the filled-in file, or the last good policy while it does not parse |
| PolicyFile.EditEffect | policy_engine/policy_store.py:73-125 | a refused edit changes nothing a reader gets; after an accepted one readers and file have each given field as given and every other field and agent as before |
| PolicyFile.EditHolds | policy_engine/policy_store.py:73-147 | the kill switch holds: over any reads, other edits and unreadable files, a field set by an accepted update is what every later reader gets, until it is set again, the agent is removed, or a readable file is put behind the process |
| PolicyFile.FailedWriteShows | policy_engine/policy_store.py:78-82 | after a write that failed, readers still get the file's policy if and only if the edit changed nothing |
| PolicyFile.BehindSeenIff | policy_engine/policy_store.py:47-65 | an edit of the file behind the cache is seen if and only if it is noticed: it moves the modification time off the cached one, or says what the cache says |
| Company.ResolveCompany | resource_server/upstreams.py:274-301 | the first row with that ticker; else the first with that title; else the first of the shortest titles that begin with it; else of those that contain it; else none |
| Company.BestUnique | resource_server/upstreams.py:277-281 | at most one row is best |
| Company.Shortest | resource_server/upstreams.py:296-301 | the first of the shortest titles |
| Company.ContainsMeaning | resource_server/upstreams.py:299 | the recursive substring test means there is text before and after |
| Clock.IsoOrder | policy_engine/storage.py:202-203 | stored timestamps compare as text exactly as their instants do, with or without a fraction |
| Clock.IsoDay | policy_engine/storage.py:540 | the first ten characters are the UTC day |
| Clock.IsoNoBar | policy_engine/storage.py:226-229 | a timestamp never contains the separator |
| Clock.DateOfOrdinal | policy_engine/storage.py:202-203 | the calendar gives a real date for every day and is inverse to the closed-form day count |
| KnownAnswers.IsoSamples | policy_engine/storage.py:202-203 | a leap day with microseconds and a whole second, in the very characters |
| KnownAnswers.MonthTable | policy_engine/storage.py:202-203 | the days before each month, in a common and in a leap year |
| KnownAnswers.TwoMembers | policy_engine/storage.py:211-219 | an object of two members is written in key order, whichever was inserted first, without white space |
| KnownAnswers.MessageSamples | common/identity.py:70-73 | the signed text of a request without arguments and of one with |
| KnownAnswers.LinkSample | policy_engine/storage.py:222-233 | the hashed text of an event, and the predecessor of the first |
| KnownAnswers.NoteSample | common/anchor.py:82-83 | the note of seq 42 |
| FloatMargin.CentsDecide | policy_engine/storage.py:563-575 | for whole cents up to 1000 dollars and days of up to 8992 counted rows, however each conversion and addition rounds, the floating test decides exactly as whole cents do |
| FloatMargin.SumError | policy_engine/storage.py:563-572 | the rounded sum of a day's rows is within a proved bound of the exact one |
| FloatMargin.DayWithinCap | policy_engine/storage.py:538-602 | over any run of requests decided in floating point, and denials, in which every test sums at most 8992 counted rows and amounts and caps are at most 1000 dollars, a day's whole cents never exceed the cap of its latest admission |

## Left out

- HTTP routing, middleware, bearer auth, CORS, field bounds of the request
  models, the sign, health, list and provisioning endpoints: plumbing. Amounts
  and prices are taken to be non-negative.
- x402 settlement, the facilitator, Algorand node calls, accounts and keys: the
  payment is an outcome chosen freely, the chain a map from transaction to note
  that only grows, by this system's transactions and by anybody's. A fresh
  transaction id is never one already on chain. The indexer is any function,
  but for a transaction of this system's it gives the note that is there or
  nothing. Whoever holds the anchor account's key could post from it; "sent by
  anchor_now" is a condition on the sender only as far as that key is kept.
- Ed25519 and SHA-256 themselves, and `common/policy_auth.py`: a signature check
  is valid, invalid or malformed; the hash is any function.
- A response lost after settlement: the code records it as denied, so nothing
  here says that money moved only if the row is approved.
- Two operators releasing, or releasing and rejecting, one hold at once: the code
  does not claim the row before paying. `Engine` takes a hold with a payment
  under way to be no longer open to them, and a refusal's event and finalize to
  be one step.
- Gateway.Endpoints.BeginApproval: asks that no payment of the row is under way,
  which the source does not; see the line above.
- Gateway.Endpoints.ApproveHold: asks the same.
- Gateway.Endpoints.RejectHold: asks the same.
- A request reads its policy and reserves in one step of `Engine`; what an edit
  between its reads can do is `Snapshot`.
- `_execute_payment` between its try blocks (policy_engine/app.py:773-790) is
  taken not to fail; `_classify_failure` and every text for people is a
  parameter.
- One clock reading stamps all events of a sweep.
- The accounts and node parameters of `anchor_now`, whose failure is one outcome
  of sending.
- SQLite files, migrations, timeouts and busy errors: kept are the write lock,
  working copies, commit and rollback, and primary keys. Rows of a table are a
  sequence in key order, columns `explorer_url` and the anchors' and reads' own
  timestamps are dropped. In `Threads` the demo edits do not take part.
- Amounts in payloads and signed texts are written as whole counts of quanta, not
  as the shortest decimal of a double; equal amounts still have equal texts.
  `Json` itself reads and writes both. NaN and infinities are left out, texts are
  sequences of characters without lone surrogates, and the reader accepts the
  canonical grammar, not arbitrary white space. Times in a signed text are whole
  numbers likewise.
- `int()` in `parse_note` on non-ASCII digits and spaces, and `str.lower` and
  `str.strip` in the company search, whose query comes folded.
- Instants before year 1: subtracting a window from a time that early raises in
  the source, and is a precondition here. Instants run from year 1 to year 9999,
  as a datetime does.
- A policy file that parses but has no `agents` object, or agents that are not
  objects: it raises in the source and is not modelled.
- The detail texts of `verify_chain`, `verify_anchor` and `integrity_report`;
  the weather and company fetches with their time-to-live cache; agents,
  dashboard and scripts: only easy members.
- FloatMargin.CentsDecide: does not model a compensated SUM, which newer SQLite
  versions use and which rounds less, nor subnormal and overflowing doubles,
  which amounts up to 1000 dollars never reach; the row bound is of the proof,
  not of the code.
- Limits.CapHolds: assumes that no finalize of the run revives money that had
  stopped counting, because the store does not check it;
  `Limits.LateFinalizeDoublesSpend` shows what then happens, and
  `Holds.GuardedIffNever` when the engine's runs meet it.
- PolicyFile.ServesTheFile: assumes that an edit behind the process is noticed,
  because `PolicyFile.BehindSeenIff` shows that it is missed when it is not.

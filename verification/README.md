# Verified model of the orkestr operations cores

Dafny models, with proofs, of seven stateful cores of the repository:

* **Audit ledger and evidence archive** (`service_audit.py`, `evidence_archive.py`, with `reachability.py` as a second
  producer). `AuditLedger` gives every committed SQLite transaction as a function on a ledger value; `AuditStore` and
  `Archive` are the classes that update the tables row by row and are proved to compute those functions.
  `LedgerInvariant` is kept by every transaction of every process, committed or rolled back; `LedgerRuns`, `Drain`,
  `Fairness`, `Dispatching` and `Collection` prove what holds over whole runs of any number of processes.
  `RowOrder` holds the facts about listings in creation order.
* **Job attribution and service control** (`Attribution`, `ServiceControl`, `StoredAttribution`): durable intent, at
  most one runner call, and the chain from that call to the identity stored beside an event, over joint runs of
  controllers and ledger processes. `Journal` is the framing of the journal output.
* **Owned-session protocol** (`protocol.py`, class `Channel`). `Protocol` is the session step by step on JSON frames,
  keeping the fields a refusal has already updated; `Channel` is the class with the same fields. `ProtocolMoves` shows
  that each frame takes the channel through one of a dozen JSON-free moves, and `ProtocolRuns`, `TurnGrammar`, `Requests`
  and `DeadSessions` use that to prove whole runs, in which client and provider frames interleave freely and go on after
  every refusal. `Scenarios` shows that the runs exist.
* **Streaming monitors** (`Hysteresis`, `QualificationWindow`): counters that compress a history, against specifications
  over the whole history.
* **Desktop target resolver** (`Endpoints`, `DesktopTarget`, `TargetRuns`, `TargetResolver`): a single-flight lookup table
  under every interleaving of its promise steps, and the port read from an endpoint text.
* **Hardening compiler and posture evaluation** (`Hardening`, `DropIns`, `Posture`, `Durations`, `CompiledProfiles`,
  `Rollback`): a profile compiled to drop-in text, the text read by systemd's rules over any inherited unit, and the
  result displayed, evaluated and taken back.
* **Branch synchronisation** (`CommitGraph`, `WorktreeList`, `BranchSync`): fast-forward-only ref updates over a commit
  graph.

Each class is proved against a specification function of the same step, and the lemmas prove what the source promises
about those functions over every run. Clocks, senders, sinks, runners, authorizers and git's exit codes are parameters.

## What the proofs found

Eight promises hold only under a condition the source does not check. Each has a lemma with the exact condition.

* Collectors take no lock between reading the cursor and committing: a slower one may put the cursor back behind events
  that are known. Nothing is lost or doubled, but the cursor no longer marks what is known
  (`Collection.CommitFallsBack`, `Collection.CollectionIsExact`, `Collection.CursorIsExact`, and
  `Collection.OverlapMovesTheCursorBack` for a run).
* `prepare` raises on its primary key when the same rows are bundled again at the same clock value
  (`Drain.SameClockMayCollide`, `Drain.CollisionHappens` for a run of every deployment, and
  `Drain.MovedClockNeverCollides` for callers whose clock has moved).
* Old pending rows can starve a later one: each retry changes them, and a changed row goes into the next export again, so
  a later row waits as long as `limit` older ones change between two exports (`Fairness.ChangedRowIsExported`,
  `Fairness.ChangedRowStarves`, and `Fairness.OldRowsMayStarveALaterOne` for runs of every deployment).
* A window policy whose duration exceeds 9999 sampling gaps is accepted and can never complete
  (`QualificationWindow.CompletableIff`, `QualificationWindow.AcceptedPolicyThatNeverCompletes`).
* A `turn/start` answer may name a retired turn; it is accepted, and the session can then never hear of a turn or commit
  again (`DeadSessions.StartMayNameARetiredTurn`, reached in `Scenarios.RetiredTurnIsReachable`).
* A `turn/steer` answer that arrives after its turn completed is refused, and the session is then stuck for good
  (`DeadSessions.SteerMustBeAnsweredBeforeCompletion`, reached in `Scenarios.WedgeIsReachable`).
* A good branch report may leave the remote without the release (`BranchSync.GoodReportsMayLeaveTheRemoteBehind`), for a
  branch that was never pushed (`BranchSync.LocalOnlyIsLeft`) or diverged there (`BranchSync.DivergedIsLeft`).
* A compiled posture may be expired when it is made, because of an exception the profile lists without needing it
  (`CompiledProfiles.PostureMayBeBornExpired`, `CompiledProfiles.StaleSampleIsAccepted`).

## Model

| member | source | states |
|---|---|---|
| Attribution.ExactAttribution | scripts/sre/service_audit.py:45-64 | The accumulating loop returns an identity exactly when the event names a job and one identity alone qualifies for that job, boot, unit and action. |
| Attribution.AttributionOfSet | scripts/sre/service_audit.py:45-64 | Attribution depends only on the set of receipts: order and repetition do not matter. |
| Attribution.AttributionNeverSwitches | scripts/sre/service_audit.py:63-64 | More receipts leave an attribution as it is or make it ambiguous, the latter exactly when one of them qualifies for another identity. |
| AuditLedger.DelayBounds | scripts/sre/service_audit.py:175-176 | Retry delays lie between 30 and 300 seconds and never shrink with the number of attempts. |
| AuditStore.Store.Claim | scripts/sre/service_audit.py:101-106 | The kind of a store is fixed by its first claim; another kind is refused and changes nothing. |
| AuditStore.Store.Ingest | scripts/sre/service_audit.py:112-146 | A batch is recorded with its cursor as a whole or, on any raised error, not at all except for the earlier kind claim; the store stays valid. |
| AuditStore.Store.IngestClaimed | scripts/sre/service_audit.py:121-146 | The transaction after the claim: scope, rows and cursor together or nothing. |
| AuditStore.Store.AddRows | scripts/sre/service_audit.py:127-142 | The row loop adds the new events of a batch, in order, until a bad cursor or a full table. |
| AuditStore.Store.Reconcile | scripts/sre/service_audit.py:148-158 | Every event is re-attributed from the complete receipt set; oversized sets and other kinds are refused. |
| AuditStore.Store.AttributeRows | scripts/sre/service_audit.py:153-158 | The update loop changes the attribution of every row and nothing else. |
| AuditStore.Store.First | scripts/sre/service_audit.py:170-171 | The scan returns the least row by creation time, then identity. |
| AuditStore.Store.Dispatch | scripts/sre/service_audit.py:160-197 | A call makes the specified rounds of attempt, send and record, returns how many were confirmed, and leaves the store valid. |
| AuditStore.Store.SendDue | scripts/sre/service_audit.py:168-197 | The loop of a call: the first due obligation is attempted, at most so many times and as long as one is due. |
| AuditStore.Store.Attempt | scripts/sre/service_audit.py:175-196 | One attempt is committed with its back-off before the sender runs, and its outcome after. |
| AuditStore.Store.Record | scripts/sre/service_audit.py:190-196 | Only a receipt naming the event itself marks it delivered; otherwise an undelivered row records why. |
| Archiving.Archive.Prepare | scripts/sre/evidence_archive.py:45-80 | Returns the open bundle if there is one, else persists the oldest changed or due rows as one new bundle, else nothing; errors change nothing. |
| Archiving.Archive.SelectRows | scripts/sre/evidence_archive.py:59-68 | The scan keeps exactly the first rows, in order, that changed since their export or are due for retention. |
| Archiving.Archive.Deliver | scripts/sre/evidence_archive.py:82-117 | A receipt is stored, with the exported versions, exactly for an acceptable and long enough acknowledgement; a stored one is returned while its horizon suffices. |
| Archiving.Archive.Prune | scripts/sre/evidence_archive.py:119-160 | Removes what the acknowledged snapshot justifies and closes the export, or fails and changes nothing. |
| Archiving.Archive.RemoveRows | scripts/sre/evidence_archive.py:142-153 | The loop archives exactly the unchanged, settled and due rows; its tombstone insert never conflicts. |
| Archiving.Monitor.Observe | scripts/sre/reachability.py:82-121 | A sample either commits the counters, the transition it calls for and its time together, or is refused and changes nothing. |
| Archiving.Monitor.Commit | scripts/sre/reachability.py:102-118 | The decision on the counted evidence and its transition row are committed together, unless the table is full. |
| Archiving.Monitor.Count | scripts/sre/reachability.py:96-101 | A gap longer than the policy resets the evidence before the sample is counted. |
| LedgerInvariant.IngestExtends | scripts/sre/service_audit.py:127-142 | An accepted batch keeps every row and adds only fresh obligations of its own events, never one that is archived. |
| LedgerInvariant.IngestKeeps | scripts/sre/service_audit.py:112-146 | Ingest, committed or rolled back, keeps the ledger invariant and forgets nothing. |
| LedgerInvariant.ReconcileKeeps | scripts/sre/service_audit.py:148-158 | Reconcile keeps the invariant and forgets nothing. |
| LedgerInvariant.ClaimKeeps | scripts/sre/service_audit.py:169-179 | Committing an attempt keeps the invariant. |
| LedgerInvariant.SettleKeeps | scripts/sre/service_audit.py:190-196 | Recording an outcome, even for a row pruned meanwhile, keeps the invariant: a delivered row holds a receipt naming itself. |
| LedgerInvariant.ExportKeeps | scripts/sre/evidence_archive.py:45-80 | Prepare keeps the invariant, in particular that at most one export still has its bytes. |
| LedgerInvariant.ReceiveKeeps | scripts/sre/evidence_archive.py:111-117 | Storing a receipt keeps the invariant and every earlier receipt. |
| LedgerInvariant.PruneRowsInBulk | scripts/sre/evidence_archive.py:142-153 | The pruning loop in closed form: the removable rows leave, each with a tombstone, and no insert conflicts. |
| LedgerInvariant.PruneCommits | scripts/sre/evidence_archive.py:126-157 | The exact effect of a successful prune. |
| LedgerInvariant.RemoveKeeps | scripts/sre/evidence_archive.py:119-160 | Prune keeps the invariant and forgets no identity. |
| LedgerInvariant.ProbeFresh | scripts/sre/reachability.py:108-115 | The next transition number of a probe is in neither table. |
| LedgerInvariant.ObserveKeeps | scripts/sre/reachability.py:82-121 | A probe sample, committed or refused, keeps the invariant. |
| LedgerInvariant.StepKeeps | scripts/sre/service_audit.py:112-197 | Every transaction of every process keeps the invariant and forgets no identity, export or receipt. |
| LedgerRuns.RunKeeps | scripts/sre/service_audit.py:112-197 | So does every interleaving of them, crashes included. |
| LedgerRuns.Conservation | scripts/sre/evidence_archive.py:143-153 | Over every run the identities ever inserted, with multiplicity, are exactly those live or archived, each once. |
| LedgerRuns.ReplayAddsNothing | scripts/sre/service_audit.py:134-141 | Ingesting any part of an earlier batch again, after any run and any pruning, adds no row and no tombstone and never fails for capacity. |
| LedgerRuns.DeletionJustified | scripts/sre/evidence_archive.py:129-153 | Whatever removes a row is a prune of a receipted export whose snapshot holds that very row, settled and past retention, with at least one more retention period to go. |
| LedgerRuns.DepartedRowsAreJustified | scripts/sre/evidence_archive.py:143-153 | A row present before a run and gone after it left a tombstone naming a receipted export. |
| LedgerRuns.ChangedRowSurvives | scripts/sre/evidence_archive.py:144-146 | A row that changed after its snapshot is never removed under that snapshot. |
| LedgerRuns.PruneNeverConflicts | scripts/sre/evidence_archive.py:128-160 | In every reachable ledger prune fails only for a bad time, a missing receipt or a short horizon. |
| LedgerRuns.DeliveryKeepsBytes | scripts/sre/evidence_archive.py:97-101 | In every reachable ledger an unacknowledged export still has its exact bytes. |
| LedgerRuns.OneOpenExport | scripts/sre/evidence_archive.py:53-56 | At most one export has a payload at any time. |
| LedgerRuns.TransitionsAreNew | scripts/sre/reachability.py:108-115 | The transition insert, which does not look at tombstones, never meets a known identity. |
| LedgerRuns.RowEvolves | scripts/sre/service_audit.py:148-197 | How one transaction changes a row it leaves in place: payload, identity and creation never, delivery only forwards. |
| LedgerRuns.DeliveredStays | scripts/sre/service_audit.py:190-194 | A delivered obligation stays delivered until it is archived, over every run. |
| LedgerRuns.ClaimsBackOff | scripts/sre/service_audit.py:170-179 | Over every run, whatever processes dispatch, attempts of one obligation are separated by the delay of the attempt before. |
| LedgerRuns.ArchivedIsNeverClaimed | scripts/sre/service_audit.py:170-171 | An archived obligation is never attempted again. |
| LedgerRuns.MemoryReplaysAccepted | scripts/sre/reachability.py:91-118 | A stored probe memory is the replay of exactly the samples that committed, through rollbacks and other processes. |
| LedgerRuns.IncidentLedgerIsComplete | scripts/sre/reachability.py:104-116 | A probe ledger has no holes: its transitions, live or archived, are those the committed samples call for. |
| Drain.CycleProgress | scripts/sre/evidence_archive.py:45-160 | A prepare, deliver, prune cycle at one clock value removes exactly its snapshot rows from the backlog. |
| Drain.DrainProgress | scripts/sre/evidence_archive.py:45-160 | Successive cycles shrink the backlog by the limit each time until it is empty. |
| Drain.DrainTerminates | scripts/sre/evidence_archive.py:53-71 | After ceil(n / limit) cycles prepare has nothing left, every remaining row has its current version acknowledged, and exactly the settled and due rows are gone. |
| Drain.DrainNeedsItsCycles | scripts/sre/evidence_archive.py:61-77 | After fewer cycles prepare still finds rows. |
| Drain.SameClockMayCollide | scripts/sre/evidence_archive.py:73-75 | `prepare` raises on its primary key exactly when no export is open and an export of the same clock value, store and cursor holds the very rows that come first in the backlog. |
| Drain.MovedClockNeverCollides | scripts/sre/evidence_archive.py:45-80 | If every export was made before now, `prepare` succeeds for all valid arguments. |
| Drain.ChangedBackCollides | scripts/sre/evidence_archive.py:73-75 | A family of runs in which that happens: a row exported, attributed, exported and left unattributed again at one clock value. |
| Drain.CollisionHappens | scripts/sre/evidence_archive.py:73-75 | In every deployment a ledger that one ingest reaches is brought there by two exports and two reconciliations. |
| Fairness.BundledByCount | scripts/sre/evidence_archive.py:61-68 | A changed or due row is bundled exactly if fewer than `limit` such rows come before it; otherwise the whole bundle does. |
| Fairness.PassTakes | scripts/sre/evidence_archive.py:57-77 | An acknowledged pass exports the row, or takes exactly `limit` of the rows ahead of it and none else. |
| Fairness.QueueMoves | scripts/sre/evidence_archive.py:57-77 | Over passes at a moving clock, with any other transactions between them, the number of rows ahead of a waiting row falls by `limit` a pass, rises by the rows that join and falls by those that changed back or were pruned. |
| Fairness.ChangedRowIsExported | scripts/sre/evidence_archive.py:57-58 | If at most r rows join ahead of it between two passes, a row is bundled, or needs no export, within n + 1 passes as soon as fewer than limit + n * (limit - r) are ahead; if they stand still, within ceil((ahead + 1) / limit). |
| Fairness.ChangedRowStarves | scripts/sre/evidence_archive.py:57-58 | That bound is exact: while r more rows join than leave, a row with as many ahead, or with at least `limit` ahead if r is no less, is in none of the bundles. |
| Fairness.OldRowsMayStarveALaterOne | scripts/sre/evidence_archive.py:57-58 | In every deployment that can hold two rows there are runs of any length in which an old pending row, changed by each retry, keeps a later row out of every bundle. |
| Dispatching.AttemptsAreTheOldest | scripts/sre/service_audit.py:168-179 | One call attempts exactly the first eligible obligations by creation time and identity. |
| Dispatching.NoRowAttemptedTwice | scripts/sre/service_audit.py:168-179 | Within one call no obligation is attempted twice and attempts are strictly ascending. |
| Dispatching.DispatchDelivers | scripts/sre/service_audit.py:190-197 | The count returned is the number of rows newly delivered, and no delivery is undone. |
| Dispatching.DispatchKeeps | scripts/sre/service_audit.py:168-197 | A whole call keeps the ledger invariant, whatever the sender answers. |
| Dispatching.CallIsDetermined | scripts/sre/service_audit.py:168-197 | The rounds of a call, what it attempts and where it ends follow from the ledger, the sender and the clock. |
| Dispatching.RoundEffect | scripts/sre/service_audit.py:175-196 | One round changes one row, which is then no longer eligible at this time. |
| ServiceControl.Controller.Control | scripts/sre/service_control.py:33-80 | Refused arguments, the kind claim, reuse, the durable intent, the single call and the recorded outcome, with a death possible before and after the call. |
| ServiceControl.AtMostOneCall | scripts/sre/service_control.py:43-63 | Over every run with crashes anywhere the runner is called at most once per operation identity. |
| ServiceControl.ReuseChangesNothing | scripts/sre/service_control.py:45-51 | Reusing an identity never acts again; a conflicting reuse is refused and changes nothing. |
| ServiceControl.OutcomesAreFinal | scripts/sre/service_control.py:77-78 | An operation that ended stays as it ended. |
| ServiceControl.AttributionIsEarned | scripts/sre/service_control.py:61-86 | In every run what a listing of the receipts attributes an event to is an accepted operation whose only call returned exactly that job, for that boot and unit. |
| StoredAttribution.NextKeeps | scripts/sre/service_audit.py:148-158 | Every step of a controller, a listing or a ledger process keeps the attributions earned and the listed receipts backed by operations that stand as listed. |
| StoredAttribution.StoredAttributionIsEarned | scripts/sre/service_watch.py:79-81 | The same of the attribution stored beside every row and in every export, in every joint run of controllers and ledger processes, where a reconciliation may use a listing of any age. |
| Journal.JournalBatch | scripts/sre/service_watch.py:18-65 | A bad scope or bound is refused first; otherwise, however the output is cut into reads, the batch depends only on the bytes and on how they end. |
| Journal.ReadRows | scripts/sre/service_watch.py:32-59 | The reading loop computes that batch. |
| Journal.TakeLines | scripts/sre/service_watch.py:46-57 | The inner loop takes the complete lines of the buffer up to the limit or the first bad one. |
| Journal.BatchIsFirstLines | scripts/sre/service_watch.py:40-59 | A batch succeeds exactly with the first min(limit, n) lines, and each failure has its exact cause. |
| Journal.LinesOfFramed | scripts/sre/service_watch.py:46-48 | Records written one per line are recovered in order with nothing left over. |
| Journal.BatchOfFramed | scripts/sre/service_watch.py:46-59 | When journalctl prints the records of some rows, wherever its output is cut, a successful batch is the first of those rows, in order. |
| Journal.BatchOfAllFramed | scripts/sre/service_watch.py:46-59 | When the records of all rows are printed, a batch succeeds exactly if the first min(limit, n) are within the bound and, if there are fewer than the limit, the output ended cleanly; it is exactly those rows. |
| Collection.ReadingsAreSound | scripts/sre/service_audit.py:127-132 | What is read of a journal with valid, distinct cursors is a sound journal. |
| Collection.ReadBatchIsOffered | scripts/sre/service_watch.py:18-59 | A successful batch over what journalctl prints after a position is a batch offered from the cursor there, so what is read off the bytes is what `ingest` is given. |
| Collection.ReadBatchIsFull | scripts/sre/service_watch.py:46-59 | A successful batch over all that follows a position is the next `limit` rows, or all that are left. |
| Collection.IngestMoves | scripts/sre/service_audit.py:127-142 | A committed batch leaves the cursor at its own end, even if that is further back, and what is known only grows. |
| Collection.CommitFallsBack | scripts/sre/service_audit.py:142-143 | A commit puts the cursor back exactly when its batch is not empty and ends before where the cursor stands. |
| Collection.CollectionIsExact | scripts/sre/service_watch.py:79-80 | In every run, with collectors whose batch starts at any cursor the store held before, the ledger knows exactly the journal events up to the furthest position of its cursor, each with its payload; the cursor stands there exactly when no stored cursor was further. |
| Collection.CursorIsExact | scripts/sre/service_watch.py:79-80 | The ledger knows the events up to its cursor and no others exactly when the records between the cursor and its furthest position hold no event. |
| Collection.SerialCollectionIsExact | scripts/sre/service_watch.py:79-80 | If no other collector commits between the read and the commit of one, the ledger always knows exactly the events up to its cursor. |
| Collection.FullBatchesReachTheEnd | scripts/sre/service_watch.py:79-80 | Without overlap, c committed full batches take the cursor to record min(n, c * limit) and make exactly the events before it known: ceil(n / limit) reach the end of the journal and fewer do not. |
| Collection.OverlapMovesTheCursorBack | scripts/sre/service_audit.py:142-142 | Two collectors that read from the same cursor: if the one that read less commits last, the cursor falls back behind events that stay known. |
| Collection.TwoEventsSuffice | scripts/sre/service_audit.py:142-142 | It happens with any two events. |
| Collection.RunsAgree | scripts/sre/service_watch.py:79-80 | Two runs agree on the payload of every event that both hold, and an event that one knows alone lies between the furthest positions of the two. |
| Hysteresis.CountMeasuresStreak | scripts/sre/reachability.py:96-100 | The counter is the length of the longest gap-free suffix of identical outcomes. |
| Hysteresis.FailureCountMeasuresOutage | scripts/sre/reachability.py:96-101 | The failure counter is the length of the longest gap-free unhealthy suffix. |
| Hysteresis.ActiveRefinesHistory | scripts/sre/reachability.py:99-110 | After any samples the active state is the one specified over the whole history. |
| Hysteresis.LedgerReplaysToState | scripts/sre/reachability.py:108-116 | The transitions are numbered without holes, chain from healthy, never repeat a state and end in the active one. |
| Hysteresis.EvidenceIsFresh | scripts/sre/reachability.py:99-110 | Evidence for the next transition is gathered after the previous one. |
| Hysteresis.TransitionsAreRare | scripts/sre/reachability.py:102-110 | Transitions times the smaller threshold never exceed the accepted samples. |
| QualificationWindow.Window.Open | scripts/sre/qualification_window.py:18-34 | A window opens exactly for a valid policy equal to the stored one in a store of its kind, with the recorded observations; a claim stays even if the policy is refused. |
| QualificationWindow.Window.Observe | scripts/sre/qualification_window.py:36-64 | A sample is appended, or refused for the first objection it meets with nothing changed. |
| QualificationWindow.Window.GetReport | scripts/sre/qualification_window.py:66-92 | Complete exactly when some clean suffix is long enough and recent; samples, span and breaks are those of the maximal clean suffix. |
| QualificationWindow.NoBreaksIffClean | scripts/sre/qualification_window.py:73-81 | There are no breaks exactly when the whole history is clean. |
| QualificationWindow.QualifiedBySpan | scripts/sre/qualification_window.py:87-89 | Completion read off the maximal clean suffix alone. |
| QualificationWindow.SpanBound | scripts/sre/qualification_window.py:74-88 | A clean stretch spans at most its number of gaps times the longest allowed gap. |
| QualificationWindow.CompletionNeedsSamples | scripts/sre/qualification_window.py:84-89 | Completion needs at least one plus duration over gap observations. |
| QualificationWindow.CompletableIff | scripts/sre/qualification_window.py:58-59 | Some recorded history completes a policy exactly when 9999 gaps cover its duration. |
| QualificationWindow.AcceptedPolicyThatNeverCompletes | scripts/sre/qualification_window.py:19-22 | An accepted policy that no history completes. |
| Channels.Channel.Create | v2/provider-broker/protocol.py:111-155 | A channel is made, fresh, exactly from a valid configuration. |
| Channels.Channel.Client | v2/provider-broker/protocol.py:157-254 | One client frame, through the handlers of opening, handshake, thread, steer, cancel and commit: the whole new state and the frame or reply let out, also when it is refused half way. |
| Channels.Channel.Provider | v2/provider-broker/protocol.py:325-471 | One provider frame, through the handlers of notifications and responses: the whole new state and what is let out, also when it is refused half way. |
| ProtocolMoves.EveryStepIsAMove | v2/provider-broker/protocol.py:157-471 | Every frame, from either side, takes the channel through one of the listed moves and lets out at most one entry. |
| ProtocolRuns.MoveIsSound | v2/provider-broker/protocol.py:157-471 | Every move keeps the invariant, takes nothing back, and lets an entry out only under the conditions for it. |
| ProtocolMoves.ForwardedIsFaithful | v2/provider-broker/protocol.py:333-410 | What is passed on keeps its method, is about the own thread and names the turn it arrived with. |
| ProtocolRuns.ReachableInv | v2/provider-broker/protocol.py:140-155 | Every reachable channel meets the invariant: the pending kind fixes the stage, native is known exactly when ready, committed implies ready, a terminal turn is set and not retired, retired turns are commits minus one. |
| ProtocolRuns.StagesAdvance | v2/provider-broker/protocol.py:256-303 | One more frame advances the stage by at most one; the native thread and everything spent is never taken back. |
| ProtocolRuns.StartIsExact | v2/provider-broker/protocol.py:275-300 | A new thread is requested exactly with the fixed policy, the configured sandbox and an allowed directory. |
| ProtocolRuns.ResumeIsExact | v2/provider-broker/protocol.py:275-300 | A resumed thread likewise, exactly with the expected identity and without its turns. |
| ProtocolRuns.WorkspaceIsPinned | v2/provider-broker/protocol.py:295-297 | Over every run the workspace is the initial one or one the operator pinned. |
| TurnGrammar.FlattenParse | v2/provider-broker/protocol.py:235-252 | Splitting an output into blocks loses and reorders nothing. |
| TurnGrammar.CommitCloses | v2/provider-broker/protocol.py:247-250 | A commit closes the open block of the output: its turn has completed, joins the retired ones and was not retired before. |
| TurnGrammar.RunTells | v2/provider-broker/protocol.py:235-252 | Over every run the blocks tell the state: the retired turns are those of the closed blocks, the open block that of the channel. |
| TurnGrammar.RunsFollowTheGrammar | v2/provider-broker/protocol.py:354-410 | In every run the output is one block per accepted commit, each naming one turn, with at most one completion as its last notification and before the next commit; no notification names a turn of an earlier block. |
| Requests.RequestsAreAnsweredInOrder | v2/provider-broker/protocol.py:157-164 | In every run requests and replies have increasing numbers, one request is outstanding at a time, each is answered at most once, nothing is started twice and at most 256 frames are accepted. |
| Requests.RunKeepsBooks | v2/provider-broker/protocol.py:411-471 | What the channel remembers matches its whole log, over every run. |
| Requests.AnswersMatch | v2/provider-broker/protocol.py:411-415 | An accepted answer carries the number of the client request and the identifier of the provider request. |
| Requests.AnswersAreClean | v2/provider-broker/protocol.py:418-471 | No answer lets the account directory out, and turn and thread answers name the own turn and thread. |
| DeadSessions.RetiredIsDead | v2/provider-broker/protocol.py:398-400 | Once the current turn is a retired one, nothing is passed on and no commit accepted ever again. |
| DeadSessions.StartMayNameARetiredTurn | v2/provider-broker/protocol.py:455-461 | A turn/start answer is accepted under any identifier; the session goes on exactly when it is not retired. |
| DeadSessions.WedgedIsDead | v2/provider-broker/protocol.py:462-463 | With a steer pending on a completed turn nothing leaves the broker ever again. |
| DeadSessions.SteerMustBeAnsweredBeforeCompletion | v2/provider-broker/protocol.py:462-466 | With a steer pending anything can still leave the broker exactly while its turn has not completed. |
| DeadSessions.CompletionOvertakesSteer | v2/provider-broker/protocol.py:403-410 | A completion is accepted while a steer is pending, and leads there. |
| Scenarios.HandshakeCompletes | v2/provider-broker/protocol.py:157-303 | From a fresh channel, for every valid configuration, some run opens the session and makes it ready. |
| Scenarios.CommitRuns | v2/provider-broker/protocol.py:235-252 | A ready channel between turns takes any new message and starts its turn, retiring the previous one. |
| Scenarios.RetiredTurnIsReachable | v2/provider-broker/protocol.py:455-461 | Some run from a fresh channel ends with a retired turn as the current one. |
| Scenarios.WedgeIsReachable | v2/provider-broker/protocol.py:462-463 | Some run from a fresh channel ends with a steer pending on a completed turn. |
| Endpoints.ScanIsTheFirstMatch | apps/server/src/desktop-target.ts:27-32 | One scan for the first colon with two to five digits before a slash or the end finds the digits of the leftmost match of the pattern; its second alternative never changes the port. |
| Endpoints.EndpointReadsBack | apps/server/src/desktop-target.ts:27-32 | Every endpoint with a port of two to five digits is read back, bare or with a scheme, a path or blanks around it. |
| DesktopTarget.SessionPort | apps/server/src/desktop-target.ts:34-38 | The first candidate that is not falsy decides, the port in the endpoint text last: the result is its port if it is a whole number from 1 to 65535, and a refusal otherwise even if a later candidate is one. |
| DesktopTarget.MaxPending | apps/server/src/desktop-target.ts:62-62 | A map counts as full exactly from the configured bound on, taken between 1 and 256, or from 64 on if none is configured. |
| DesktopTarget.CleanRemovesOwn | apps/server/src/desktop-target.ts:92-95 | The cleanup, which deletes by key, deletes its own lookup and no other. |
| DesktopTarget.StepKeepsInv | apps/server/src/desktop-target.ts:64-108 | Every promise step keeps the invariant: the map holds exactly the live lookups, each under its own binding, and no more than the bound. |
| TargetRuns.SingleFlight | apps/server/src/desktop-target.ts:74-98 | In every state of every run at most one live lookup per hashed binding and at most the bound in all. |
| TargetRuns.SameKeySharesTheLookup | apps/server/src/desktop-target.ts:40-76 | A call whose hashed key is that of a live lookup joins it and starts nothing, whatever its grant, and even when the map is full. |
| TargetRuns.OutcomesAreShared | apps/server/src/desktop-target.ts:87-100 | Lookups only advance and the first answer fixes the outcome for all that joined. |
| TargetRuns.ReturnedPortsAreFresh | apps/server/src/desktop-target.ts:72-106 | A returned port was answered to a lookup of the own binding that was joined while live under the grant of the call, and the same binding was authorized again afterwards; a share was there if needed, and validated. |
| TargetResolving.TargetResolver.Decide | apps/server/src/desktop-target.ts:64-108 | What runs after the first and after the second authorization; like every other handler of the class (begin, join, answer, cleanup, settle, continue, share validation) it leaves exactly the state of its promise step. |
| Durations.ReadShowNat | scripts/sre/systemd_posture.py:82-82 | A displayed number reads back as itself. |
| Durations.DurationReadsBack | scripts/sre/systemd_posture.py:75-81 | Every displayed duration reads back as its number of seconds. |
| Posture.Evaluate | scripts/sre/systemd_posture.py:85-122 | Exactly the specified findings, for exactly the usable profiles, with the error each unusable one gives. |
| Posture.Drifts | scripts/sre/systemd_posture.py:97-99 | The loop reports exactly the properties that do not match. |
| Hardening.EarliestReview | scripts/sre/hardening_plan.py:131-132 | The loop finds the earliest review date the profile holds. |
| Hardening.Compile | scripts/sre/hardening_plan.py:41-143 | An artifact is made exactly for an accepted profile, with the specified content, rollback record and posture. |
| Hardening.WriteProperties | scripts/sre/hardening_plan.py:118-126 | The loop writes the lines of every property in order. |
| DropIns.ReadProperty | scripts/sre/hardening_plan.py:118-126 | Reading the lines of one property, whatever was inherited, sets exactly its reviewed value. |
| DropIns.AcceptedFits | scripts/sre/hardening_plan.py:53-89 | Every property of an accepted profile can be written out and read back. |
| DropIns.InstalledIsConfigured | scripts/sre/hardening_plan.py:116-128 | Installing the content over any inherited unit leaves exactly the reviewed settings. |
| Rollback.ContentIsTheSettings | scripts/sre/hardening_plan.py:116-128 | Two accepted profiles compile to the same text exactly when they set the same properties and limits. |
| Rollback.RollbackRemovesOnlyWhatWasReviewed | scripts/sre/hardening_plan.py:146-150 | A rollback may remove the compiled content and no edited one; of what was compiled for another accepted profile, only what sets the same. |
| CompiledProfiles.CompiledProfilePasses | scripts/sre/hardening_plan.py:116-138 | Every accepted profile, installed over any unit and displayed in any order, evaluates to no drift, root or limit finding; the others are exactly as listed. |
| CompiledProfiles.DisplayExists | scripts/sre/hardening_plan.py:116-128 | Whatever an accepted profile is installed over, the result has such a display. |
| CompiledProfiles.SampleIsAccepted | scripts/sre/hardening_plan.py:41-115 | At every time the compiler accepts some profile and baseline. |
| CompiledProfiles.PostureMayBeBornExpired | scripts/sre/hardening_plan.py:131-133 | The posture of an accepted profile has expired when it is made exactly if the profile lists an exception that it does not need and whose review is due. |
| CompiledProfiles.StaleSampleIsAccepted | scripts/sre/hardening_plan.py:131-133 | At every time the compiler accepts a profile whose posture has expired by then. |
| CompiledProfiles.WarningClearsThePeak | scripts/sre/hardening_plan.py:108-109 | Task pressure is never reported below the measured peak. |
| CommitGraph.AncestorTransitive | apps/cli/src/release-train-branches.js:40-40 | Ancestry composes, so a ref moved forward twice has moved forward. |
| CommitGraph.AncestorIffPath | apps/cli/src/release-train-branches.js:40-40 | In a graph without cycles a commit is an ancestor of another exactly when a line of parents leads back to it. |
| CommitGraph.RangeIsEmpty | apps/cli/src/release-train-branches.js:39-43 | Nothing is missing from a tip exactly when the other commit is its ancestor. |
| WorktreeList.Parse | apps/cli/src/release-train-branches.js:5-19 | The loop reads the list line by line as specified. |
| WorktreeList.ParseInvertsPrint | apps/cli/src/release-train-branches.js:5-19 | Reading what git prints gives back every worktree, in order. |
| BranchSync.Repository.SyncBranch | apps/cli/src/release-train-branches.js:34-63 | One branch is skipped, current or moved forward as specified, or git fails and it stays. |
| BranchSync.Repository.SyncAll | apps/cli/src/release-train-branches.js:31-64 | Every considered branch once, each told from the refs before the call; refs only move forward, also when git fails half way. |
| BranchSync.Repository.Sync | apps/cli/src/release-train-branches.js:26-74 | The whole call: the refs afterwards and the report; a failure leaves the remote as it was. |
| BranchSync.FirstsAreDistinct | apps/cli/src/release-train-branches.js:32-33 | Every branch is considered once, at its first worktree. |
| BranchSync.GoodReportsReachTheRelease | apps/cli/src/release-train-branches.js:72-73 | A real call blocks exactly the considered branches that do not end at the release, leaves those alone, and is good only if there are none. |
| BranchSync.NothingIsRewritten | apps/cli/src/release-train-branches.js:40-71 | Every local and remote ref stays or moves to a descendant; a dry run changes nothing. |
| BranchSync.PendingMovesForward | apps/cli/src/release-train-branches.js:58-69 | With accurate tracking refs a push is refused only by the choice of the remote. |
| BranchSync.GoodReportsMayLeaveTheRemoteBehind | apps/cli/src/release-train-branches.js:60-73 | After a good report the remote has the release of a considered branch exactly when the branch was behind it when last fetched, or the remote was there already. |
| BranchSync.LocalOnlyIsLeft | apps/cli/src/release-train-branches.js:57-58 | A good report of a branch that exists only here, which the remote never gets. |
| BranchSync.DivergedIsLeft | apps/cli/src/release-train-branches.js:60-61 | A good report of a branch that keeps another commit on the remote. |
| BranchSync.DryRunForetells | apps/cli/src/release-train-branches.js:52-63 | A dry run announces exactly the moves, pushes and blocks of the real call. |
| BranchSync.CountsExplain | apps/cli/src/release-train-branches.js:39-56 | Own commits are counted exactly on diverged branches, and none is missing once synced. |

## Left out

- SQLite, WAL mode, files and their owners: tables are maps and each committed transaction is one step.
- SHA-256 and canonical JSON: digests are taken as injective, so an identity is its preimage and "bytes changed" can only mean a different bundle.
- The `archive_policy` and `probe_policy` rows that bind a store to one sink or probe policy: the policy is fixed per run instead.
- The reachability probes, `classify` and target validation, `summary`, `check_dependency`, `inspect_paths` and `collect`: easy members around the cores.
- Floating point: times, fractions and durations are exact reals, and inputs are finite as the code requires.
- Exceptions raised by a sink, and a process killed inside a transaction, are the `Crash` step of the ledger runs; the clock is read where the code reads it.
- `--since` on the first collection: the journal of `Collection` starts where that lookback starts.
- Random operation identities and session handles: they are parameters.
- The tool routes of the protocol (`offline_route`, `workspace_route`, `advertisement` are not part of this model): tools are disabled, so `ToolResult` and `item/tool/call` are refused.
- Frame decoding and encoding of the protocol: frames arrive as JSON values, and text that cannot be encoded as UTF-8 does not occur.
- JSON values of an unexpected type in profiles, policies and posture input: those inputs are typed; the protocol, the journal and the receipts are modelled with arbitrary JSON fields.
- `int()` of a displayed task count accepts signs, spaces and underscores; the model reads digits only, which is what systemd prints.
- The duration pattern is modelled as a left-to-right scanner that accepts the same texts.
- The conversion of the port fields of a browser record to numbers: a field comes with its number, if it has one.
- Abort signals, metrics and the environment of the desktop resolver: a lookup is its race, cleanup and settling.
- Dispatching.DispatchDelivers: counts within one process; a row pruned by another process between attempt and outcome is settled as a no-op but still counted, as the code does.
- A working directory that is a JSON list or object makes the broker raise a TypeError instead of its own refusal; in the model both are a frame that is not taken.
- The HTTP proxies, CLI commands, formatting, outbox and thread stores: not part of this model.

# TrustLedger, verified

A Dafny model of TrustLedger's core and proofs of what it promises: a double-entry ledger with an
undo log, a write-ahead log with truncating recovery, the engine that joins the two, the replicated
state machine, a Merkle mountain range with inclusion proofs, and the simulated consensus cluster.

Each component comes twice. Functions on values say what one operation does. Classes and methods do
it the way the source does, with fields updated in place, buffers, undo logs and loops, and are
proved equal to those functions. The theorems are about the functions, over every input, every run
or every reachable state, and hold of the classes through that equality.

| files | component |
|---|---|
| `LedgerTypes`, `LedgerSpec`, `LedgerEngine` | accounts, transfers, the ledger's operations; the mutable ledger |
| `LedgerUndo`, `LedgerReplay`, `LedgerSpeculation` | exact rollback, replay, speculation against execution |
| `LedgerInvariant`, `LedgerErrors`, `LedgerAudit`, `Sums` | what every run keeps; what errors mean; the audit loops |
| `WalRecord`, `WalReader`, `WalRecovery`, `WalFile` | frames, streaming scan, recovery at every cut, the log file |
| `CrashConsistency`, `IngestEngine` | prepare, append, commit, answer; power cuts and restarts |
| `RaftMachine` | committed entries and snapshots |
| `MerkleSpec`, `MerkleProof`, `MerkleCounts`, `MerkleForest`, `MerkleMountain` | trees, proofs at the right and at any count, the node array |
| `ClusterTypes`, `ClusterSpec` | messages, nodes, and the cluster as a step function |
| `ClusterDurability`, `ClusterAgreement`, `ClusterValidity`, `ClusterElection` | what every run of the cluster keeps |
| `ClusterProgress`, `ClusterLiveness`, `ClusterCompleteness` | exactly when nodes commit, proposals can still be committed, and new leaders hold an entry |
| `ClusterGenesis`, `ClusterAccounting`, `ClusterOracle` | genesis, money and the oracle |
| `ClusterNode`, `ClusterSim` | disk, node and cluster as mutable objects, with the history that leads to their state |
| `Codecs` | codecs that meet what is assumed of postcard |

How the world outside the code enters:

- The cluster keeps the set of all packets ever sent. Any of them may arrive at any time, any number
  of times or never, which covers delay, loss, duplication and partitions. Timeouts may fire at any
  moment, crashes may tear the disk anywhere, reboots may happen at any time.
- Time, random choices and I/O faults are parameters. A reader may return any number of bytes up to
  what was asked for.
- Hashes are free terms: two are equal only if built the same way from the same parts.
- Encoders (postcard) are a pair of functions with a round trip. The cluster's entry encoder is
  assumed to round-trip and to stay below the maximum payload length for entries with a 64-bit index,
  as the source's are, so the cluster theorems speak of runs with fewer than 2^64 proposals. `Codecs`
  exhibits codecs for which both assumptions hold.
- Amounts are below 2^128 and every addition and subtraction is checked as in the source. Sums in
  statements are mathematical. `usize` has 64 bits.
- The release build is modelled: the checks behind `debug_assertions` are off.

Where the code and its prose differ, the code is followed. The repository's README calls the Merkle
structure Blake3-hashed; the code tags and hashes with SHA-256, and the tags are what matters here.
A term should have one leader; the code forgets a vote on reboot but keeps the term. `ClusterElection`
gives the cause of every split term in any run, a concrete run that splits one, the condition under
which none does, and, for three nodes, exactly when votes already cast split a term. A cluster should go
on after a crash and a new leader should hold what was committed; the code never sends a proposal
again and compares commit indexes only. `ClusterLiveness` and `ClusterCompleteness` give, for every
run, the exact condition under which each holds, and runs in which it fails.

## Model

| member | source | states |
|---|---|---|
| `LedgerInvariant.RunsAreSound` | crates/ledger-core/src/ledger.rs:268-325 | every ledger reachable by any sequence of commands is sound: total debits equal total credits for posted and for pending money, each account's pending balance is the sum of its pending transfers, each posted balance is the fold of the journal, overdraft limits hold, and every hold is resolved at most once and never for more than it reserved |
| `LedgerInvariant.EventKeepsSound` | crates/ledger-core/src/ledger.rs:556-596 | one accepted event of any kind keeps all five parts of soundness |
| `LedgerInvariant.EventMoves` | crates/ledger-core/src/ledger.rs:757-962 | an accepted event changes exactly the two accounts it names, by exactly its posted and pending amounts on the right sides, or opens exactly one account with the type, flags and scale it names, or closes exactly one |
| `LedgerInvariant.EventFiles` | crates/ledger-core/src/ledger.rs:636-693 | an accepted event files exactly one new transfer, or resolves exactly one pending hold (a capture also files its settlement, linked to the hold, at the time of the event), and appends itself to the journal |
| `LedgerInvariant.KeepsWellFormed` | crates/ledger-core/src/ledger.rs:1012-1071 | every transfer keeps known, distinct parties, a positive amount, and a pending link only to a posted hold |
| `LedgerInvariant.KeepsConserved` | crates/ledger-core/src/ledger.rs:974-1007 | double entry: posted and pending totals stay equal on both sides |
| `LedgerInvariant.KeepsBacked` | crates/ledger-core/src/ledger.rs:757-874 | held and posted sums of every account, also of unknown ones, move exactly with the event |
| `LedgerInvariant.KeepsLimited` | crates/ledger-core/src/account.rs:204-258 | an account that must not be overdrawn keeps posted plus pending within the other side, whatever event is accepted |
| `LedgerInvariant.KeepsLifecycle` | crates/ledger-core/src/transfer.rs:199-213 | no hold is captured or voided twice, and no capture exceeds its hold |
| `LedgerInvariant.TransferSucceedsIff` | crates/ledger-core/src/ledger.rs:268-325 | on a sound ledger a transfer is accepted exactly when it is proper, its link points at a posted hold, the sums fit, and both accounts are open and within their limits afterwards |
| `LedgerInvariant.HoldSucceedsIff` | crates/ledger-core/src/ledger.rs:636-693 | the same exact condition for reserving a hold |
| `LedgerInvariant.CaptureSucceedsIff` | crates/ledger-core/src/ledger.rs:757-874 | a capture succeeds exactly when the hold is pending, the amount is within it, the id is new, the time is not stale and the posted sums fit: the checked subtractions never underflow |
| `LedgerInvariant.VoidSucceedsIff` | crates/ledger-core/src/ledger.rs:883-962 | voiding succeeds exactly when the hold is pending and the time is not stale |
| `LedgerInvariant.AccountOpensIff` | crates/ledger-core/src/ledger.rs:154-193 | an account is opened exactly when its id is new, its scale is the ledger's and the time is not stale |
| `LedgerInvariant.AccountClosesIff` | crates/ledger-core/src/ledger.rs:202-224 | an account is closed exactly when it exists, is open and the time is not stale |
| `LedgerErrors.ErrorsAreTrue` | crates/ledger-core/src/ledger.rs:268-962 | every error an operation returns is true of the ledger it met: which account, transfer or hold it names, what was wrong with it, and the amounts it reports (requested and available money, requested and held amount, the two times) |
| `LedgerErrors.FirstFailure` | crates/ledger-core/src/ledger.rs:360-383 | a refused list of operations fails at one operation: all before it were accepted, and the error is that operation's own on the ledger it met |
| `LedgerInvariant.HoldIsCovered` | crates/ledger-core/src/ledger.rs:883-962 | both accounts of a pending hold have at least its amount reserved, so releasing it cannot underflow |
| `LedgerInvariant.ClosedNeverGrows` | crates/ledger-core/src/ledger.rs:202-224 | over every continuation of every run, a closed account stays closed and its posted plus pending money never grows on either side |
| `LedgerInvariant.RunsAreChronological` | crates/ledger-core/src/ledger.rs:228-242 | journal times never go back and the watermark is the time of the last event |
| `LedgerInvariant.EventAdvancesClock` | crates/ledger-core/src/ledger.rs:228-237 | an event is accepted only at or after the watermark and moves it to its own time |
| `LedgerInvariant.SoundPassesAuditIff` | crates/ledger-core/src/ledger.rs:974-1071 | a sound ledger passes the audit exactly when its totals fit in 128 bits |
| `LedgerAudit.VerifyInvariants` | crates/ledger-core/src/ledger.rs:974-1071 | the audit loops accept exactly the ledgers with fitting totals, conserved sums and sound structure, and otherwise report a fault that is there, overflow before conservation, posted before pending, both before structure |
| `LedgerAudit.SumColumn` | crates/ledger-core/src/ledger.rs:974-1007 | a checked sum over all accounts overflows exactly when the mathematical sum does, in whatever order it runs |
| `LedgerAudit.AuditTransfers` | crates/ledger-core/src/ledger.rs:1012-1071 | the transfer pass leaves the true held sum of every account in its two tables, or reports a transfer that is broken in the way it says, or a held sum that overflows |
| `LedgerAudit.AuditHolds` | crates/ledger-core/src/ledger.rs:1012-1071 | the account pass accepts exactly when every pending balance is the held sum, and otherwise names an account with both amounts |
| `LedgerAudit.AuditOverRuns` | crates/ledger-core/src/ledger.rs:974-1071 | every reachable ledger passes the audit exactly when its totals fit |
| `LedgerReplay.ReplayIdentity` | crates/ledger-core/src/ledger.rs:1078-1086 | replaying the journal of any reachable ledger succeeds and gives back that ledger |
| `LedgerReplay.OpIsItsEvent` | crates/ledger-core/src/ledger.rs:599-622 | an operation is accepted exactly when the one event it names is: same kind, parties, ids, amount and time; both have the same effect, and exactly that event is recorded |
| `LedgerReplay.OpsHaveEvents` | crates/ledger-core/src/ledger.rs:360-383 | a successful list of operations records exactly the events it names, one each and in order, and applying them has the same effect |
| `LedgerReplay.EventIsRecorded` | crates/ledger-core/src/ledger.rs:556-596 | applying an event records exactly that event |
| `LedgerReplay.GuardIsTransparent` | crates/ledger-core/src/ledger.rs:360-383 | taking pre-images before each operation rejects nothing the operations themselves accept, and changes no result |
| `LedgerReplay.EventGuardIsTransparent` | crates/ledger-core/src/ledger.rs:495-515 | the same for events |
| `LedgerUndo.OpUndoExact` | crates/ledger-core/src/ledger.rs:1197-1257 | the pre-images of any accepted operation exist and restore the exact state before it |
| `LedgerUndo.EventUndoExact` | crates/ledger-core/src/ledger.rs:1131-1193 | the pre-images of any accepted event restore the exact state before it |
| `LedgerUndo.RestoresCompose` | crates/ledger-core/src/ledger.rs:495-515 | undo logs concatenate: what restores each of two steps restores both, also when they touch the same accounts and holds |
| `LedgerUndo.RestoresRollsBack` | crates/ledger-core/src/ledger.rs:523-551 | unwinding such a log backwards, cutting the journal and resetting the watermark gives the base state |
| `LedgerUndo.UndoNewTransfer` | crates/ledger-core/src/ledger.rs:1131-1193 | undoing a new transfer or hold puts both balances back and removes it |
| `LedgerUndo.UndoPost` | crates/ledger-core/src/ledger.rs:1131-1193 | undoing a capture puts back both balances and the hold's state, and removes the settlement |
| `LedgerUndo.UndoVoid` | crates/ledger-core/src/ledger.rs:1131-1193 | undoing a void puts back both balances and the hold's state |
| `LedgerSpeculation.AcceptsWhatExecutionAccepts` | crates/ledger-core/src/ledger.rs:393-434 | speculation accepts transaction `i` exactly when executing the transactions one by one, skipping failed ones whole, accepts it; its prediction is exactly the events of its operations, and its error the error execution gives |
| `LedgerSpeculation.AcceptedAt` | crates/ledger-core/src/ledger.rs:393-434 | the events of an accepted transaction stand among the accepted lists at the number of accepted transactions before it |
| `LedgerSpeculation.AcceptedFrom` | crates/ledger-core/src/ledger.rs:393-434 | and every accepted list comes from exactly such a transaction |
| `LedgerSpeculation.CommitReachesExecution` | crates/ledger-core/src/ledger.rs:476-485 | committing the accepted events never fails and reaches the state of one-by-one execution |
| `LedgerSpeculation.AcceptedPrefix` | crates/ledger-core/src/ledger.rs:393-434 | the first `m` accepted event lists are what speculating on a prefix of the transactions accepts |
| `LedgerEngine.Ledger.CreateAccount` | crates/ledger-core/src/ledger.rs:154-193 | in place: the specified new state, or the specified error and no change |
| `LedgerEngine.Ledger.CloseAccount` | crates/ledger-core/src/ledger.rs:202-224 | in place: only the closed flag, journal and watermark change, or an error and no change |
| `LedgerEngine.Ledger.CreateTransfer` | crates/ledger-core/src/ledger.rs:268-325 | in place: the specified new state, or the first failing check's error and no change |
| `LedgerEngine.Ledger.CreatePending` | crates/ledger-core/src/ledger.rs:636-693 | the same for a hold |
| `LedgerEngine.Ledger.PostPending` | crates/ledger-core/src/ledger.rs:757-874 | the same for a capture |
| `LedgerEngine.Ledger.VoidPending` | crates/ledger-core/src/ledger.rs:883-962 | the same for a void |
| `LedgerEngine.Ledger.ApplyBatchOp` | crates/ledger-core/src/ledger.rs:599-622 | dispatch of one operation, which is the event `OpIsItsEvent` names, or its error and no change |
| `LedgerEngine.Ledger.ApplyEvent` | crates/ledger-core/src/ledger.rs:556-596 | dispatch of one event, with its recorded amount checked |
| `LedgerEngine.Ledger.RollbackTo` | crates/ledger-core/src/ledger.rs:523-551 | the undo loop computes the specified rollback |
| `LedgerEngine.Ledger.ApplyWithUndo` | crates/ledger-core/src/ledger.rs:495-515 | either every event is applied and the returned log restores the old state, or the ledger is exactly as before |
| `LedgerEngine.Ledger.CommitEvents` | crates/ledger-core/src/ledger.rs:476-485 | all events or none |
| `LedgerEngine.Ledger.ApplyBatch` | crates/ledger-core/src/ledger.rs:335-350 | all transfers or none |
| `LedgerEngine.Ledger.PrepareBatch` | crates/ledger-core/src/ledger.rs:360-383 | the ledger is exactly as before, whatever the outcome; the result is the events execution would record |
| `LedgerEngine.Ledger.PrepareTx` | crates/ledger-core/src/ledger.rs:393-434 | a failed transaction is rolled back whole, a successful one stays visible to the next and can be undone |
| `LedgerEngine.Ledger.PrepareTransactions` | crates/ledger-core/src/ledger.rs:393-434 | the ledger is exactly as before; the results are those of the specification |
| `LedgerEngine.Replay` | crates/ledger-core/src/ledger.rs:1078-1086 | the replay loop gives a new ledger equal to the specified replay, or its error |
| `WalRecord.CrcAppendLaw` | crates/wal/src/record.rs:137-192 | CRC-32C (section 12.1 of RFC 3720) continued over a second piece is the checksum of both pieces |
| `WalRecord.LeRoundTrip` | crates/wal/src/record.rs:67-89 | little-endian writing and reading are inverse |
| `WalRecord.FrameScans` | crates/wal/src/record.rs:262-295 | an encoded frame, whatever follows it, scans to its sequence number and payload and leaves exactly what follows |
| `WalRecord.CutFrameIsBroken` | crates/wal/src/record.rs:137-192 | a frame cut at any byte is never taken for a record |
| `WalRecord.ScanRefinesDecode` | crates/wal/src/record.rs:334-385 | one-shot decoding accepts exactly the inputs on which the streaming scan yields one record that uses them up, with the same fields |
| `WalRecord.FetchIsTransparent` | crates/wal/src/record.rs:137-192 | skipping the payload copy changes nothing else |
| `WalReader.ReadUpTo` | crates/wal/src/record.rs:94-105 | for every pattern of short and interrupted reads the buffer is filled with the next bytes as far as there are any; only a failing source gives an error |
| `WalReader.ReadPayload` | crates/wal/src/record.rs:137-192 | reading the payload piece by piece gives the checksum of header and payload, and the payload; read errors are passed on |
| `WalReader.NextRecord` | crates/wal/src/record.rs:137-192 | the streaming scan, for every pattern of short and interrupted reads, gives the specified step and stops exactly behind the frame; only a failing source gives an error |
| `WalReader.EncodeFrameAppend` | crates/wal/src/record.rs:262-295 | the in-place encoder appends exactly the frame, or refuses an oversized payload |
| `WalReader.WriteHeader` | crates/wal/src/record.rs:262-295 | the header fields land at their offsets over a zeroed area |
| `WalRecovery.RecoveryAtEveryCut` | crates/wal/src/wal.rs:74-144 | an intact log followed by appended frames cut at any byte recovers to the log and exactly the frames that end at or before the cut, with the exact end offset and next number |
| `WalRecovery.KeptIffFrameEndsInTime` | crates/wal/src/wal.rs:74-144 | a record survives a cut exactly when its frame ends at or before it |
| `WalRecovery.RecoveredIsIntact` | crates/wal/src/wal.rs:74-144 | what recovery keeps of any bytes at all is an intact log of consecutive records |
| `WalRecovery.RecoveryIsIdempotent` | crates/wal/src/wal.rs:74-144 | recovering the recovered file keeps everything |
| `WalRecovery.StreamThen` | crates/wal/src/wal.rs:374-421 | reading a log that continues gives the records of both parts |
| `WalRecovery.LogHolds` | crates/wal/src/wal.rs:173-245 | the frames of a batch read back as exactly its payloads |
| `WalFile.Wal.AppendBatch` | crates/wal/src/wal.rs:173-245 | one write for the whole group: on success the log is extended by exactly the payloads, durably when syncing; on failure the counter is as before and so is the file, unless taking back the write fails too, and then some first bytes of the new frames are left behind it; the error names the first oversized payload or is I/O; success exactly when every payload fits and no fault hits |
| `WalFile.Wal.ValidatePayloads` | crates/wal/src/wal.rs:173-245 | accepts exactly the batches whose payloads all fit, and reports the first that does not |
| `WalFile.Wal.ReadRecords` | crates/wal/src/wal.rs:257-297 | the stream yields exactly the committed payloads and then ends, or reports that the file changed, or that a seek or read failed |
| `WalFile.RecoverScan` | crates/wal/src/wal.rs:74-144 | the recovery loop computes the specified recovery, including the hard error on a sequence gap, or passes on a read error |
| `WalFile.Open` | crates/wal/src/wal.rs:74-144 | opening keeps the recovered prefix, reports exactly the truncated byte count and stands ready for the next number; a held lock, a failing file system and a sequence gap are the only errors, each reported as such |
| `IngestEngine.Engine.ProcessBatch` | crates/ingest/src/engine.rs:238-306 | prepare, encode, append, commit and answer: on success the engine is in the specified served state, the log is durable and every transaction got its own answer, `Committed` exactly when one-by-one execution accepts it, with its events in the log, and otherwise the error execution gives; when the log fails the accepted are told so, when encoding fails they get no answer, and in both cases the ledger is as before and so is the log unless its write could not be taken back; the exact condition for each outcome |
| `IngestEngine.CommittedIffExecuted` | crates/ingest/src/engine.rs:238-306 | a transaction is answered as committed exactly when the batch went through and one-by-one execution accepts it |
| `IngestEngine.AnsweredAreCommitted` | crates/ingest/src/engine.rs:299-305 | the answers that crash consistency keeps are exactly the transactions told `Committed`, each under its own record number with its own events |
| `CrashConsistency.CommitNeverFails` | crates/ingest/src/engine.rs:289-298 | the commit after a successful append never fails, so that error path is dead, and it reaches one-by-one execution |
| `CrashConsistency.CrashConsistent` | crates/ingest/src/engine.rs:239-305 | in every life of served batches and power cuts at any byte, restart succeeds, the log holds exactly the surviving event lists, the ledger is their replay and also the one-by-one execution of a history of whole transactions, and everything answered is in it |
| `CrashConsistency.ServedStaysConsistent` | crates/ingest/src/engine.rs:239-305 | serving a batch keeps that |
| `CrashConsistency.PowerCutStaysConsistent` | crates/wal/src/wal.rs:74-144 | so does cutting the power at any byte of an append and restarting |
| `CrashConsistency.AnswersArePermanent` | crates/ingest/src/engine.rs:299-305 | no later step, including a power cut, takes back a record, an executed transaction or an answer |
| `CrashConsistency.LedgerAfterRecords` | crates/ledger-core/tests/wal_e2e.rs:108-115 | decoding and replaying the first `m` new records gives the execution of a whole prefix of the transactions |
| `RaftMachine.RequestIsAtomic` | crates/raft/src/state_machine.rs:222-299 | a request executes all its operations or none, and the commit after its preparation never fails |
| `RaftMachine.SnapshotThenTail` | crates/raft/src/state_machine.rs:164-211 | installing the snapshot taken after any entries restores that machine exactly, and applying the remaining entries gives the state and the answers of applying all of them |
| `RaftMachine.EntriesAreReplayable` | crates/raft/src/state_machine.rs:113-143 | between entries the ledger is what its own journal replays to |
| `RaftMachine.AnswersAreTrue` | crates/raft/src/state_machine.rs:222-299 | a success answer names exactly what the request changed, and a refusal carries the error of the first operation that fails, with the state untouched |
| `RaftMachine.EntriesAddUp` | crates/raft/src/state_machine.rs:113-143 | after any entries the ledger is the one-by-one execution of their requests, the last applied id and membership are the latest among them, and there is one answer per entry |
| `RaftMachine.LedgerStateMachine.Apply` | crates/raft/src/state_machine.rs:113-143 | the loop applies the entries in order, one answer each, and records the last applied id and membership |
| `RaftMachine.LedgerStateMachine.ApplySingleRequest` | crates/raft/src/state_machine.rs:222-299 | prepare and commit on the live ledger, with the response `AnswersAreTrue` is about |
| `RaftMachine.LedgerStateMachine.InstallSnapshot` | crates/raft/src/state_machine.rs:181-211 | replaces the whole state, or leaves it alone and says whether the bytes did not decode or the journal does not replay |
| `MerkleSpec.RootIsSplitRoot` | crates/merkle/src/hash.rs:182-192 | bagging the mountains gives the tree of section 2.1 of RFC 6962, with the peak tag at splits that are not powers of two, for every leaf sequence |
| `MerkleSpec.HeightsAreTheSetBits` | crates/merkle/src/mmr.rs:95-143 | the mountains' heights are exactly the set bits of the leaf count, tallest first, and there are popcount many |
| `MerkleProof.AcceptsExactly` | crates/merkle/src/proof.rs:42-143 | against a root, a proof that declares the right leaf count is accepted exactly when it is the tree's own proof for that index and the leaf is the one appended there |
| `MerkleProof.AcceptedLeafWasAppended` | crates/merkle/src/proof.rs:42-143 | whatever leaf count a proof declares, if it is accepted for a hashed leaf then that leaf was appended |
| `MerkleCounts.AcceptsAnyCountIff` | crates/merkle/src/proof.rs:42-143 | for any declared leaf count: a proof of a hashed leaf is accepted exactly when the mountain its count and index name has the same height in the tree and is not merged away, the leaf is the one they name there, the siblings are its path and the peaks are the tree's with the last ones merged |
| `MerkleCounts.WrongIndexAccepted` | crates/merkle/src/proof.rs:42-143 | a concrete accepted proof with a wrong count that names a wrong index: of three leaves the last is accepted as leaf 4 of 5 |
| `MerkleCounts.BagsAlikeIff` | crates/merkle/src/hash.rs:182-192 | peaks bag to the same root as some mountains exactly when they are those mountains with some of the last ones merged |
| `MerkleCounts.ClimbHeight` | crates/merkle/src/proof.rs:106-117 | a fold from a hashed leaf reaches only perfect trees of its own height |
| `MerkleProof.ClimbIsExact` | crates/merkle/src/proof.rs:106-117 | folding siblings by index bits reaches the root of a perfect tree exactly for the right leaf and path |
| `MerkleProof.BagIsInjective` | crates/merkle/src/hash.rs:167-192 | equally many peaks that bag to the same root are the same peaks |
| `MerkleProof.FindMountain` | crates/merkle/src/proof.rs:65-93 | the loop over powers of two finds the mountain, its height and its first leaf |
| `MerkleProof.FoldPath` | crates/merkle/src/proof.rs:106-117 | the bit loop computes the fold |
| `MerkleProof.BagPeaksLoop` | crates/merkle/src/hash.rs:182-192 | the right-to-left loop computes the bagged root |
| `MerkleProof.VerifyProof` | crates/merkle/src/proof.rs:42-143 | the verifier gives the specified verdict, error by error |
| `MerkleForest.HeightsUnique` | crates/merkle/src/mmr.rs:95-143 | descending heights that cover `n` leaves are the heights of `n` |
| `MerkleForest.ClimbRung` | crates/merkle/src/mmr.rs:191-225 | from any leaf's ancestor the parent and child links agree and the other child is the next sibling of the path |
| `MerkleMountain.MerkleMountainRange.AppendLeafHash` | crates/merkle/src/mmr.rs:95-143 | the merge loop keeps the node array a row of perfect trees of descending height and appends exactly one leaf |
| `MerkleMountain.Merging` | crates/merkle/src/mmr.rs:107-139 | joining the last two mountains under a parent node keeps a growing range and every leaf |
| `MerkleMountain.MerkleMountainRange.NodeCount` | crates/merkle/src/mmr.rs:95-143 | `n` leaves take `2n` minus popcount(`n`) nodes |
| `MerkleMountain.MerkleMountainRange.Peaks` | crates/merkle/src/mmr.rs:74-82 | the peak hashes are the mountains of the leaves |
| `MerkleMountain.MerkleMountainRange.GetRoot` | crates/merkle/src/mmr.rs:88-90 | the root is the recursive split tree over everything appended so far |
| `MerkleMountain.MerkleMountainRange.LeafHash` | crates/merkle/src/mmr.rs:157-171 | the appended leaf, or out of bounds |
| `MerkleMountain.MerkleMountainRange.CollectSiblings` | crates/merkle/src/mmr.rs:191-225 | the climb never meets a broken link and collects exactly the path |
| `MerkleMountain.MerkleMountainRange.GenerateProof` | crates/merkle/src/mmr.rs:180-233 | never fails for an appended leaf, has as many siblings as the mountain is high, and the proof verifies against the root |
| `ClusterAgreement.LogAgreement` | simulator/src/cluster.rs:528-789 | in every run of fewer than 2^64 proposals, with packets lost, repeated and reordered and nodes crashing and rebooting, two nodes that committed the same index hold the same operation and timestamp |
| `ClusterAgreement.StepKeepsAgreement` | simulator/src/cluster.rs:409-445 | every single step keeps the ownership invariant behind it: only the proposer of an index commits it first |
| `ClusterAgreement.CommitsArePermanent` | simulator/src/cluster.rs:831-879 | no continuation of a run takes back a committed entry or lowers a commit index |
| `ClusterAgreement.NodesStayOk` | simulator/src/cluster.rs:240-364 | in every reachable state a node's committed indexes are exactly `1..commitIndex`, its ledger is their fold over genesis, and its disk holds exactly their frames plus, after a torn crash, bytes no scan accepts |
| `ClusterAgreement.ReactOk` | simulator/src/cluster.rs:541-788 | every message keeps the node invariant and commits only what was pending or carried |
| `ClusterDurability.RecoverExact` | simulator/src/cluster.rs:320-364 | recovery after any number of torn crashes restores exactly the committed map, commit index and ledger, and cuts off the torn tail |
| `ClusterDurability.CrashOk` | simulator/src/storage.rs:67-90 | a crash, torn or not, only adds bytes that no scan accepts |
| `ClusterDurability.DrainOk` | simulator/src/cluster.rs:590-599 | draining pending commits keeps the node invariant and commits only what was pending |
| `ClusterProgress.DrainIsExact` | simulator/src/cluster.rs:590-599 | draining commits exactly the pending indexes that follow the log without a gap, takes them out of the pending and the uncommitted ones, and touches no other index |
| `ClusterProgress.QuorumCommits` | simulator/src/cluster.rs:565-616 | in every run a leader commits on an acknowledgement exactly when it completes the quorum of the index next in its log; the entry is the proposed operation with that moment's time, and it is announced to every peer |
| `ClusterProgress.AckCommitsIff` | simulator/src/cluster.rs:586-600 | the same for one node at rest, with the index gone from the pending and the uncommitted ones |
| `ClusterProgress.AckAnnounces` | simulator/src/cluster.rs:602-614 | an acknowledgement makes a node send, to every peer, exactly the entries it newly committed |
| `ClusterProgress.CommitAdvancesIff` | simulator/src/cluster.rs:617-644 | a commit message lengthens the log exactly when its term is not older and it carries the next index, and then with its entry |
| `ClusterProgress.EarlyCommitWaits` | simulator/src/cluster.rs:632-640 | a commit beyond the next index is kept and nothing is committed |
| `ClusterProgress.CatchupAdvancesIff` | simulator/src/cluster.rs:772-787 | a catch-up answer lengthens the log exactly when it carries the next index, and then takes all its entries up to the first gap |
| `ClusterProgress.RunsRest` | simulator/src/cluster.rs:590-599 | in every run, with any codec, no node has a pending commit it could apply by itself, and nothing committed beyond its commit index |
| `ClusterProgress.VotersAreCovered` | simulator/src/cluster.rs:684-714 | in every run a vote is given exactly by the rule (term not older, no vote for another in it, candidate's claimed log not behind), and the candidate then holds every entry the voter committed |
| `ClusterProgress.HeartbeatAsksIff` | simulator/src/cluster.rs:645-683 | a heartbeat is answered by a catch-up request exactly when its term is not older and the leader is ahead |
| `ClusterProgress.AnswersIff` | simulator/src/cluster.rs:750-771 | a catch-up request is answered exactly when the log is longer, with exactly the entries after the given index |
| `ClusterProgress.LaggardCatchesUp` | simulator/src/cluster.rs:645-787 | in every run a live node behind a live leader, of a term it is not ahead of, reaches the leader's commit index in four steps, with the leader's entries, and the same ledger when it stops there |
| `ClusterProgress.RebootCatchesUp` | simulator/src/cluster.rs:846-879 | in every run a rebooting node reaches in three steps the commit index of any live node that is ahead of it |
| `ClusterProgress.FirstRoundCommits` | simulator/src/cluster.rs:409-644 | a run of four events commits any operation on two of three nodes, with the third silent |
| `ClusterLiveness.CommitsLaterIff` | simulator/src/cluster.rs:409-616 | for every proposal that is next in its proposer's log, in every run: some continuation commits it, at some node, exactly when the proposer is up and still leads the term it proposed in, and a quorum acknowledged it or is not past that term |
| `ClusterLiveness.LostIndexStopsLogs` | simulator/src/cluster.rs:409-445 | a proposal that fails this condition stops every log below its index, in every continuation: proposals are never sent again and indexes never reused |
| `ClusterLiveness.CrashedProposalStopsCluster` | simulator/src/cluster.rs:831-843 | so a leader that proposes and crashes stops the cluster for good: after two events no continuation commits anything on any node |
| `ClusterLiveness.RunsTraced` | simulator/src/cluster.rs:409-445 | in every run each index has one proposer, term and operation; proposals and acknowledgements travel only between the proposer and its peers, every counted acknowledgement was sent, and a proposer that still leads its term holds what it has not committed |
| `ClusterCompleteness.NewLeadersHoldIff` | simulator/src/cluster.rs:684-749 | after any run, every later leader of a new term holds entry `i` exactly when the nodes that have not committed it are fewer than a quorum |
| `ClusterCompleteness.LeaderCompleteness` | simulator/src/cluster.rs:684-749 | so an entry that a majority committed is in the log of every later leader of a new term, with the same operation and timestamp |
| `ClusterCompleteness.LeaderMayMissCommit` | simulator/src/cluster.rs:565-616 | an entry that only its leader committed may be missing: a run of three events and a continuation that elects a leader without it |
| `ClusterValidity.CommittedWasProposed` | simulator/src/cluster.rs:409-445 | what a node commits at an index is the operation a client proposed there |
| `ClusterElection.RunsAreHonest` | simulator/src/cluster.rs:684-749 | in every run, with whatever reboots, each candidate and leader counts only votes that were cast for it, a candidate backed nobody else in its term, and every vote was sent to the one it was cast for |
| `ClusterElection.TwoLeadersShareAVoter` | simulator/src/cluster.rs:715-749 | in every run, if two nodes ever led the same term, at whatever times, some voter backed both in it |
| `ClusterElection.SecondVoteNeedsForgetting` | simulator/src/cluster.rs:846-858 | a voter that backed two candidates in one term rebooted in that term between the two votes |
| `ClusterElection.TwoLeadersNeedForgetting` | simulator/src/cluster.rs:846-858 | together: two leaders of one term always come from a reboot that forgot a vote, and the voter and the reboot are named |
| `ClusterElection.ElectionSafety` | simulator/src/cluster.rs:684-749 | so in every run in which no reboot hits a node that voted in the term it still carries, no two nodes ever lead the same term, even at different times |
| `ClusterElection.ForgottenVoteSplitsTerm` | simulator/src/cluster.rs:831-858 | a run of eight events, with one crash and reboot between two votes, ends with two leaders of one term |
| `ClusterElection.SplitIffVotedTwice` | simulator/src/cluster.rs:715-749 | in the three-node cluster, after any run, the votes already cast can make two contenders of a term both its leaders exactly when some voter backed both |
| `ClusterAccounting.JournalsAreOrdered` | simulator/src/cluster.rs:240-297 | the journals of any two nodes are prefix-ordered by commit index, and equal commit indexes mean equal ledgers |
| `ClusterAccounting.WealthIsConserved` | simulator/src/oracle.rs:56-112 | on every node, in every run whose clients move money between tracked accounts, the tracked money is the initial supply |
| `ClusterAccounting.WorkloadKeepsBalance` | simulator/src/cluster.rs:240-297 | one operation keeps that |
| `ClusterAccounting.NoneNegative` | simulator/src/oracle.rs:56-112 | no tracked account is ever negative |
| `ClusterAccounting.WorkloadHasEvent` | simulator/src/cluster.rs:240-297 | an operation that is refused changes nothing; one that is accepted applies and records exactly the event it names, with its kind, ids, parties, amount and time |
| `ClusterAccounting.WorkloadSucceedsIff` | simulator/src/cluster.rs:240-297 | on a sound ledger an operation takes effect exactly when its transfer, hold, capture or void meets the exact acceptance condition of the ledger |
| `ClusterGenesis.ReinitBaseState` | simulator/src/cluster.rs:201-237 | the genesis loop builds the specified ledger |
| `ClusterGenesis.GenesisInBalance` | simulator/src/cluster.rs:201-237 | for distinct accounts whose total fits, genesis is sound and holds exactly accounts times balance |
| `ClusterOracle.AssertConservation` | simulator/src/oracle.rs:56-112 | passes exactly when the audit passes, every tracked account exists and is not negative, and the tracked money is the expected supply; otherwise the account, the measured amount and the wrapped drift it reports are true of the ledger |
| `ClusterOracle.AssertLogAgreement` | simulator/src/oracle.rs:119-135 | finds the first index where two journals differ, or none exactly when they agree |
| `ClusterOracle.OracleNeverComplains` | simulator/src/oracle.rs:56-135 | in every run over a funded genesis, any two journals agree, no tracked account is negative, the supply is intact, and the audit passes exactly when the node's totals fit |
| `ClusterOracle.RunsAreHealthyIff` | simulator/src/cluster.rs:886-913 | so the cluster-wide check passes in a run exactly when the totals of the active nodes fit |
| `Codecs.EntryCodecExists` | simulator/src/cluster.rs:300-316 | a codec that stores every entry with a 64-bit index within the payload limit exists, so the cluster theorems are about something |
| `Codecs.EventCodecExists` | crates/ledger-core/src/codec.rs:26-47 | a codec that round-trips every list of events exists, so crash consistency is about something |
| `Codecs.OrderlySetupExists` | simulator/src/cluster.rs:385-406 | a three-node setup meets all assumptions of the cluster and oracle theorems at once |
| `ClusterNode.SimDisk.Crash` | simulator/src/storage.rs:67-90 | a crash drops the buffer; a torn one leaves a non-empty part of it, or a fragment |
| `ClusterNode.SimNode.constructor` | simulator/src/cluster.rs:169-198 | a new node is the specified initial node |
| `ClusterNode.SimNode.ApplyOpInMemory` | simulator/src/cluster.rs:240-297 | ledger, committed map and commit index as specified: the event `WorkloadHasEvent` names is applied, or the failure is ignored and the ledger unchanged |
| `ClusterNode.SimNode.ApplyOp` | simulator/src/cluster.rs:300-316 | the same, and the frame is on disk |
| `ClusterNode.SimNode.DrainPending` | simulator/src/cluster.rs:590-599 | the loop drains as specified and lists what it committed |
| `ClusterNode.SimNode.Recover` | simulator/src/cluster.rs:320-364 | the scan loop rebuilds the specified node from the durable bytes |
| `ClusterNode.SimNode.HandlePropose` | simulator/src/cluster.rs:542-564 | the node and packets of the specified reaction: a stale term is ignored, otherwise the proposal is stored and acknowledged to its sender only |
| `ClusterNode.SimNode.HandleAck` | simulator/src/cluster.rs:565-616 | the specified reaction, which by `AckCommitsIff` and `AckAnnounces` commits exactly on a quorum for the next index and announces every newly drained entry to every peer |
| `ClusterNode.SimNode.HandleCommit` | simulator/src/cluster.rs:617-644 | the specified reaction: out-of-order commits wait, and are applied in index order without gaps |
| `ClusterNode.SimNode.HandleHeartbeat` | simulator/src/cluster.rs:645-683 | the specified reaction: a current leader is followed, and a lag is answered with a catch-up request |
| `ClusterNode.SimNode.HandleRequestVote` | simulator/src/cluster.rs:684-714 | the specified reaction: at most one candidate per term gets the vote, and only with a log at least as long |
| `ClusterNode.SimNode.HandleVoteGranted` | simulator/src/cluster.rs:715-749 | the specified reaction: leadership exactly on a quorum of distinct voters in the candidate's own term |
| `ClusterNode.SimNode.HandleCatchupRequest` | simulator/src/cluster.rs:750-771 | the loop answers with exactly the committed entries after the given index, if any |
| `ClusterNode.SimNode.HandleCatchupResponse` | simulator/src/cluster.rs:772-787 | the loop queues exactly the missing entries and drains |
| `ClusterNode.SimNode.Handle` | simulator/src/cluster.rs:528-789 | dispatch: for every message the heap object ends as the specified reaction, with the same ledger object |
| `ClusterNode.SimNode.BeginProposal` | simulator/src/cluster.rs:409-445 | the proposal is stored with the leader's own acknowledgement and sent to every peer |
| `ClusterNode.SimNode.BeginElection` | simulator/src/cluster.rs:792-828 | the specified candidacy: next term, own vote, request to every peer |
| `ClusterNode.SimNode.Crash` | simulator/src/cluster.rs:831-843 | volatile state is dropped, the disk crashes |
| `ClusterNode.SimNode.Reboot` | simulator/src/cluster.rs:846-879 | recovery, follower state and a catch-up request to every peer |
| `ClusterSim.SimCluster.constructor` | simulator/src/cluster.rs:385-406 | nodes that share no object, in the state an empty history leads to |
| `ClusterSim.SimCluster.Arrive` | simulator/src/cluster.rs:528-789 | the object stays in the state its recorded events lead to, with this delivery added |
| `ClusterSim.SimCluster.FindLeader` | simulator/src/cluster.rs:449-454 | the active leader with the lowest id, or none exactly when no node leads |
| `ClusterSim.SimCluster.ProposeOp` | simulator/src/cluster.rs:409-445 | refused exactly when no node leads; otherwise a client step at the lowest leader is added to the history the object is in |
| `ClusterSim.SimCluster.TriggerElection` | simulator/src/cluster.rs:792-828 | adds exactly an election step to the history the object is in |
| `ClusterSim.SimCluster.CrashOne` | simulator/src/cluster.rs:831-843 | adds exactly a crash step |
| `ClusterSim.SimCluster.RebootOne` | simulator/src/cluster.rs:846-879 | adds exactly a reboot step, also for an id that is no node, in whose name catch-up requests are still sent |
| `ClusterSim.SimCluster.TickOne` | simulator/src/cluster.rs:476-498 | a leader beats, any other node stands for election |
| `ClusterSim.SimCluster.TickNodes` | simulator/src/cluster.rs:467-526 | adds exactly one step for each active node whose timer is due, and for no other: a heartbeat for a leader, an election for any other node |
| `ClusterSim.SimCluster.VerifyInvariants` | simulator/src/cluster.rs:886-913 | reports nothing exactly when every active ledger is in order and no two active journals disagree; after any history whose clients move money between tracked accounts, exactly when the totals of the active nodes fit |
| `ClusterSim.SimCluster.NodesAgree` | simulator/src/cluster.rs:528-789 | whatever happened to the object, two of its nodes never disagree about a committed index |
| `ClusterSim.SimCluster.CheckPairs` | simulator/src/cluster.rs:899-910 | the double loop finds a disagreeing pair and the first index where it parts, or none exactly when all pairs agree |

## Left out

- apps/demo: HTTP handlers, dashboard, webhooks and idempotency map are I/O around short guards.
- crates/solana-settle: account plumbing; its batch chain is a one-step induction.
- crates/raft cluster, node, network and log store: adapters over OpenRaft, whose code is not part of this model.
- crates/observability: counters and text rendering.
- crates/ingest gRPC server, queue and intake (engine.rs:166-236): asynchronous plumbing and timestamp allocation; transactions arrive with arbitrary timestamps.
- simulator network, clock, random numbers, scenarios and workloads: replaced by arbitrary delivery, timing and operations.
- Fair schedules: progress is stated as the existence of a continuation, not as an eventuality, because timers and the network are arbitrary.
- SHA-256 internals, error-detection strength of the checksum and the postcard byte format: foreign code, replaced by free terms, an exact checksum function and an assumed round trip.
- Directory syncs and what a failed truncation leaves on disk: the file is a byte sequence.
- crates/wal/src/snapshot.rs: would only add another round trip.
- Debug-only `check_after_mutation`, metrics, `Display` and error texts.
- One-line members (disk writes and syncs, heartbeat and snapshot building) are proved but have no row.
- LedgerAudit.VerifyInvariants: a structure fault it reports is there, but need not be the first in id order.
- LedgerAudit.AuditTransfers: the same.
- LedgerAudit.AuditHolds: the same.
- LedgerReplay.GuardIsTransparent: states that taking pre-images rejects the same inputs; the error may then come from the pre-image rather than from the operation.
- WalFile.Wal.ValidatePayloads: does not model the 64-bit overflow of the total frame length of one batch, which no memory can hold.
- WalFile.Wal.AppendBatch: assumes the record number stays below 2^64, as the source's plain addition does.
- ClusterAgreement.LogAgreement: for fewer than 2^64 proposals; beyond that the source's saturating counter hands out one index twice. Entries still in flight may differ between nodes.
- ClusterNode.SimNode.Handle: terms are unbounded where the source uses saturating 64-bit additions.
- ClusterNode.SimNode.BeginElection: the same.
- ClusterSim.SimCluster.constructor: any set of node ids; the source builds ids 1 to 3.
- ClusterSim.SimCluster.TickNodes: which timers are due is a parameter, and the nodes act in any order; election timeouts and heartbeat intervals are not modelled.
- ClusterSim.SimCluster.VerifyInvariants: states that a finding is real, not that it is the first in id order.
- ClusterLiveness.CommitsLaterIff: for a proposal that is next in its proposer's log; one that waits behind a gap can be committed only after the gap is closed.
- ClusterCompleteness.NewLeadersHoldIff: for clusters of at least two nodes; a lone node never collects a vote or an acknowledgement.
- ClusterElection.SplitIffVotedTwice: for two nodes that contend at the end of the run; a forgotten vote whose candidate has given up splits nothing.

# ERMIA, verified in Dafny

A model of the parts of ERMIA that are hardest to get right, and proofs about them.

* **The transaction engine** (`Engine*.dfy`). One state machine for the three certifiers of `txn.cc`, SSN, SSI and
  MVOCC, over version chains as `sm-oid.cpp` builds them. Any number of transactions run at once. Every step is one
  access to shared memory: a read of a stamp, a state or a bitmap word, a store, a compare-and-swap. A spin is a step
  that is enabled only once the spin would end. The `Engine*` modules after `EngineInv` each prove that one group of
  invariants survives every step; `EngineRuns` puts them together over all runs.
* **What the engine commits.** `Dependencies` defines write-read, write-write and read-write dependencies among
  committed transactions and proves what each certifier makes of them. `Replay` runs the committed transactions one
  at a time and compares; `SerialOrders` shows that this is possible exactly when there is no cycle. `SsiRuns` says
  which steps of a run of SSI let it commit a dangerous structure, and `Snapshots` which steps let any certifier commit
  a stale read or a late update. `Visibility` says which version a read returns. `SsnStamps` and `Verdicts` say what
  the stamps of SSN are and why each certifier refuses a transaction, so that none refuses without a conflict;
  `SsiPivots` says whom a committed pivot of SSI has refused to leave behind.
  `Progress` shows that the spins cannot deadlock. `Anomalies` holds four concrete runs, `Commits` two more.
* **The epoch manager** (`Epoch`, `EpochSafety`, `EpochExit`), **the MCS lock** (`McsLock`) and **the RCU lists** (`Rcu`), each a
  state machine with a theorem about every state of every run.
* **Adler-32** (`Adler`, `AdlerSse`, `AdlerCopy`), **the second-chance hash set** (`ScHash`), **size codes**
  (`SizeCode`), **version-chain trimming** (`VersionGc`) and **holdings** of TPC-E Trade-Result (`Holdings`).

`dafny verify dfyconfig.toml` checks the whole project.

## How the proofs go

A step of one transaction is described once, by what the others may rely on (`EngineGuar.Guar`). An invariant about
transaction t is then shown to survive the steps of others from that description alone, and t's own steps one by one.
For SSN, every dependency leads to a larger successor stamp, or to an equal one and a smaller commit stamp, whatever
the interleaving; that is the whole argument for acyclicity, and the same order replays the run serially. For SSI, the
member of a cycle that committed first closes a dangerous structure. For MVOCC, commit stamps increase.

## Where code, comments and promises disagree

The model follows the code.

* **SSI can commit a dangerous structure.** Post-commit stores the successor stamp of an overwritten version and then
  s2 (txn.cc:920-923). A reader in pre-commit that finds the final successor stamp between the two stores takes s2 for
  zero (txn.cc:712-719 with 787). A reader in ssi_read looks at s2 even before the successor stamp (txn.cc:1535 with
  1546). `Anomalies.TornAnomaly` is such a run; it ends in a committed cycle. `SsiRuns.SsiExactRun` gives the exact
  condition: a run commits a dangerous structure if and only if a transaction that it commits made one of these two
  looks, each told by the state before it: the overwriter is an older pivot, and has stored s2 since the reader's look
  or has yet to store it. The comment at txn.cc:783-785 takes the updater to have concluded; that holds on the path
  that waits for it, not on the path that finds a final stamp.
* **A begin stamp is not a snapshot.** Visibility skips the version of a transaction that holds a smaller commit stamp
  but has not announced itself (sm-oid.cpp:1045-1078). `Snapshots.StaleExact` gives the exact condition, for all three
  certifiers: a committed transaction a has read a version that committed b replaced with a commit stamp smaller than
  a's begin if and only if, at one of its reads of that version, b's version lay on top, b already held such a stamp and
  had not stamped the version yet.
  `Anomalies.SkewAnomaly` is a run in which SSI commits a cycle because of this, without any dangerous structure.
  `Dependencies.SsiCycle` shows that a cycle needs a member that is torn or has such a stale read of the next member's
  write; without them SSI is acyclic (`Dependencies.SsiAcyclic`) and serializable (`SsiRuns.SsiSerializable`). The
  converse is false: `Anomalies.StaleHarmless` is a run with a stale read that is serializable. SSN and MVOCC are
  serializable whatever was skipped.
* **First updater wins has a gap.** An updater that finds an XID at the head of the chain goes by the state of its
  owner and skips the comparison with its own begin stamp (sm-oid.cpp:711-738 against 743-748). `Snapshots.LateExact`
  gives the exact condition: a committed transaction has overwritten a version stamped no earlier than its begin if and
  only if it found the owner's XID there and then saw the owner committed, not yet freed, with such a stamp.
  `Anomalies.LateAnomaly` is such a run. None of the serializability theorems needs the comparison.
* **A thread can leave its epoch and be flagged afterwards.** thread_exit returns when it finds the epoch change not
  complete (epoch.cpp:445-453), although the change may have the thread on its list of stragglers already. The thread is
  then flagged outside, and no epoch closes before it enters again. `EpochExit.ForgottenExact` gives the exact
  condition: a thread outside is flagged, or about to be, if and only if its last exit made that look while it was on
  the list. `EpochExit.StuckRun` is such a run, `EpochExit.StuckStays` shows that no request for a new epoch helps, and
  `EpochExit.ReentryFrees` that the thread's next entry does. Epochs that stop advancing are reported at
  epoch.cpp:396-402; this is one way to get there. Safety is not affected (`EpochSafety.EpochSafe`).
* **Readers of SSN wait twice.** A leaving reader waits for an older overwriter so that the overwriter finds a small
  access stamp (txn.cc:610-626). It has waited for the same verdict in pre-commit already (`Verdicts.LeavesLast`), and no
  transaction ever counts a younger reader (`Verdicts.NobodyYounger`).
* **adler32 reduces a running checksum that the definition would keep.** Section 8.2 of RFC 1950 starts from the halves
  of the running checksum as they are; the code reduces them at the end. The two agree if and only if there is a byte
  to take in or both halves are below 65521 already (`Adler.RfcExact`); `Adler.RfcMissed` is an input where they do not.
* **encode_size_aligned shifts an int** (size-encode.cpp:142, sm-defs.h:115-125). The shift and its negation are defined
  if and only if align_bits is at most 30 (`SizeCode.ShiftFits`); 31 is the first that is not
  (`SizeCode.PowersOfInt`). Sizes above 2^64 - 2^align_bits wrap around to code 0 and size 0.
* **Trade-Result keeps the trade of a holding in an int** (tpce.cc:2469, 2532), so the history names the holding if and
  only if its trade fits one (`Holdings.NamesHolding`), and two holdings whose trades agree modulo 2^32 meet in the
  history's key (`Holdings.HistoryClash`). The int arithmetic on positions overflows exactly when the new position does
  not fit, or a buy meets a position of -2^31 (`Holdings.Account.Settle`).
* **A refused insertion into the hash set** returns the end of the table (sc-hash.h:324-325), not the element in the
  way (sc-hash.h:245-247).

The fields `torn` and `seen` of a transaction, and the histories in `McsLock`, `Epoch` and `Rcu`, record what happened;
no step is decided by them. What `torn` records is told by the run itself (`SsiRuns.Taints`). The field `over` of a
version stands for the head of its record's chain.

## Model

| member | source | states |
|---|---|---|
| `EngineShapes.StepShapes` | txn.cc:159-190 | every step of every transaction keeps states, stamps and program points consistent: commit stamps unique and apart from begin stamps, one live owner per reader slot, targets that exist |
| `EngineChains.StepChains` | tuple.h:22-53 | every step keeps clsn, sstamp and the chain links in agreement with where creator and overwriter are in their update, commit or abort |
| `EngineGuar.StepGuar` | txn.cc:114-157 | what a step of one transaction may change of itself and of versions, and that it leaves all other transactions alone |
| `EngineBits.StepBits` | dbcore/serial.cpp:219-245 | every step keeps tracked readers visible: the bit stays set until the reader has left its stamp in xstamp |
| `EngineReads.StepReads` | txn.cc:227-331 | every step of anyone keeps every examined read settled: no overwriter with a smaller stamp can commit unnoticed |
| `EngineWrites.ScanNotes` | txn.cc:358-527 | one step of the bitmap scan loses no reader |
| `EngineWrites.LastScans` | txn.cc:528-532 | after the last look at xstamp every committed reader with a smaller stamp, and the creator, is allowed for |
| `EngineWrites.StepWrites` | txn.cc:333-532 | every step of anyone keeps every scanned version covered |
| `EngineFacts.StepFacts` | txn.cc:1231-1253 | every step keeps the record of when things happened: pstamp covers what was read and overwritten, and what was overwritten has a smaller commit stamp |
| `EngineSsi.StepPivot` | txn.cc:704-788 | every step keeps the meaning of ct3 (the stamp of a real committed overwriter) and of the torn flag, in both directions |
| `EngineMarks.StepS2` | txn.cc:907-929 | s2 of a version is its overwriter's ct3 from one definite store on, and zero before |
| `EngineMarks.StepRoots` | txn.cc:1332-1437 | a record has one oldest version |
| `EngineMarks.StepWaits` | txn.cc:606-626 | a leaving reader waits only for an overwriter with a smaller stamp |
| `EngineMarks.StepClaims` | dbcore/sm-oid.cpp:711-738 | every step keeps: a version that lost its XID belongs to a transaction that can only abort, and a head whose owner was seen to have committed carries a stamp |
| `EngineRuns.StepInv` | txn.cc:159-190 | every step keeps all invariants |
| `EngineRuns.RunInv` | txn.cc:159-190 | all invariants hold in every state of every run |
| `EngineRuns.SwapStamped` | dbcore/sm-oid.cpp:752-788 | an updater that went by the state of the head's owner always finds the head stamped or replaced at its compare-and-swap, even if the owner's context has been freed by then |
| `EngineReal.StepBitsReal` | dbcore/serial.cpp:219-245 | every step keeps: a bit in a version's bitmap belongs to a live transaction that read the version |
| `EngineReal.StepScans` | txn.cc:358-527 | every step keeps: whoever a scan of readers finds with a smaller commit stamp did read the version, although slots change hands meanwhile |
| `EngineReal.StepX` | txn.cc:193-200 | every step keeps: xstamp is the commit stamp of a committed creator or reader of the version |
| `Dependencies.SsnNeverMisses` | txn.cc:204-641 | for a committed reader R and a committed overwriter W of the same version, cstamp(R) < cstamp(W) gives cstamp(R) <= pstamp(W), and cstamp(W) < cstamp(R) gives sstamp(R) <= sstamp(W) |
| `Dependencies.SsnEdge` | dbcore/serial.h:14-24 | along every dependency the successor stamp grows, or stays and the commit stamp falls |
| `Dependencies.SsnAcyclic` | txn.cc:204-641 | no run of SSN commits a cycle of dependencies, of any length |
| `SsnStamps.StepReal` | txn.cc:204-532 | every step keeps: pstamp is the stamp of a committed creator of something read, or of a committed creator or reader of something overwritten; sstamp is the transaction's own stamp or that of a committed overwriter of something read |
| `SsnStamps.RunReal` | txn.cc:204-641 | bits, scans, access stamps and both SSN stamps are real in every state of every run |
| `Verdicts.DecisionExact` | dbcore/serial.h:14-24 | at the end of pre-commit SSN commits a transaction if and only if pstamp < sstamp, and SSI and MVOCC commit it |
| `Verdicts.PstampExact` | txn.cc:333-532 | pstamp of a committed transaction is exactly the largest commit stamp below its own of a transaction it depends on |
| `Verdicts.SstampExact` | txn.cc:227-331 | sstamp of a committed transaction is exactly the smallest commit stamp at the end of a path of anti-dependencies to ever smaller commit stamps |
| `Verdicts.NobodyYounger` | txn.cc:604-638 | SSN never counts a predecessor that is younger than the transaction itself |
| `Verdicts.LeavesLast` | txn.cc:606-639 | for all certifiers, an overwriter with a smaller stamp than a committed reader has its verdict |
| `Verdicts.SsnDoomed` | txn.cc:204-539 | in every run SSN dooms a transaction only when its exclusion window is violated, unless it failed outside the certifier or lost a record to another updater |
| `Verdicts.ViolatedReal` | dbcore/serial.h:14-24 | a violated window has a committed predecessor and a committed successor whose stamps violate it |
| `Verdicts.ContendExact` | dbcore/sm-oid.cpp:711-738 | an updater that found an XID is refused if and only if the owner has not committed or another version lies on the head by now |
| `Verdicts.MvoccVerdict` | txn.cc:1004-1061 | MVOCC dooms a transaction only if it lost a record to another updater, or an overwriter of something it read holds a smaller commit stamp |
| `Verdicts.SsiVerdict` | txn.cc:703-900 | SSI dooms a transaction only if it lost a record to another updater, below a committed pivot, or as a possible pivot whose overwritten version has a reader, or had one, not known to have committed before its successor |
| `SsiPivots.PivotRefusesAll` | txn.cc:792-894 | when a possible pivot has committed, every reader whose bit it copied from a version it overwrote has aborted or holds a smaller commit stamp than the pivot's successor, even if slots changed hands |
| `Commits.SsnCommits` | txn.cc:204-641 | a concrete run in which SSN commits a transaction that reads and overwrites what another committed |
| `Commits.MvoccCommits` | txn.cc:986-1100 | the same for MVOCC |
| `Dependencies.MvoccEdge` | txn.cc:1004-1061 | along every dependency of MVOCC the commit stamp grows, although overwriters seen active are skipped |
| `Dependencies.MvoccAcyclic` | txn.cc:986-1100 | no run of MVOCC commits a cycle of dependencies |
| `Dependencies.KnownOverwriter` | txn.cc:708-781 | a committed reader has taken every committed overwriter with a smaller stamp into account, for all three certifiers |
| `Dependencies.KnownReader` | txn.cc:792-894 | a committed overwriter allows for every committed reader with a smaller stamp |
| `Dependencies.DangerousIsTorn` | txn.cc:643-984 | in a committed dangerous structure the first reader committed after the pivot and is torn |
| `Dependencies.TornIsDangerous` | txn.cc:643-984 | what a torn committed transaction read is the head of a dangerous structure |
| `Dependencies.SsiExact` | txn.cc:643-984 | SSI commits a dangerous structure if and only if it commits a torn reader |
| `Dependencies.TornWindow` | txn.cc:781-787 | in pre-commit a reader becomes torn exactly when it looks at s2 between the decision of an older pivot and that pivot's store of s2 |
| `Dependencies.TornRead` | txn.cc:1535-1550 | in ssi_read a reader becomes torn exactly when the successor stamp it finds is final and another's, and a pivot's s2 has been stored since its look at s2 or is still to come |
| `Visibility.ChainOrder` | dbcore/sm-oid.cpp:770-776 | the committed versions of a record are ordered along the chain as their stamps are, one at each depth |
| `Visibility.ReadExact` | dbcore/sm-oid.cpp:963-1109 | an idle transaction can read a version if and only if it is the youngest of its record stamped no later than its begin and no version of its own lies on it |
| `Visibility.ReadsNewest` | dbcore/sm-oid.cpp:963-1109 | in every run a read returns the youngest version of the record stamped no later than the reader's begin |
| `Visibility.ReadFinds` | dbcore/sm-oid.cpp:963-1011 | a version to read, or one under the transaction's own, exists exactly when the begin stamp admits any, and there is only one |
| `Visibility.UpdateExact` | dbcore/sm-oid.cpp:740-750 | an idle transaction can update a record if and only if nothing lies on the version it would read |
| `Visibility.SkippedPending` | dbcore/sm-oid.cpp:1024-1078 | a version that a read skips although its creator holds a smaller commit stamp is not stamped yet |
| `Snapshots.StepOwn` | txn.cc:1476-1574 | only a read adds to what a transaction reads and only an update or insert to what it writes, and nothing is forgotten except on the way to an abort |
| `Snapshots.SkippedRun` | dbcore/sm-oid.cpp:963-1109 | at every moment of every run, reading below a version whose writer holds a smaller commit stamp than the reader's begin comes from a read that skipped it, and such a read leads there unless one of the two aborts |
| `Snapshots.StaleExact` | dbcore/sm-oid.cpp:1045-1078 | a committed transaction has read a version that another committed one replaced with a stamp smaller than its begin if and only if one of its reads of that version skipped the other's, which was not stamped yet, for all runs and certifiers |
| `Snapshots.LateRun` | dbcore/sm-oid.cpp:672-789 | at every moment of every run, holding or being about to put a version on one stamped no earlier than one's begin comes from a late look at its owner, and such a look leads there or to an abort |
| `Snapshots.LateExact` | dbcore/sm-oid.cpp:711-748 | first updater wins, exactly: a committed transaction has overwritten a version stamped no earlier than its begin if and only if it went by the state of the owner, committed with such a stamp, instead of the stamp |
| `Dependencies.BeforeOverwriter` | txn.cc:792-894 | what a pivot whose read of the older overwriter's record is not stale depends on otherwise has a smaller stamp than that overwriter |
| `Dependencies.FirstOfCycle` | txn.cc:643-984 | the member of a cycle that committed first and the two before it are a dangerous structure, or the one before it has a stale read of its write |
| `Dependencies.SsiCycle` | txn.cc:643-984 | every committed cycle under SSI has a member that is torn, or whose read of what the next member replaced is stale |
| `Dependencies.SsiAcyclic` | txn.cc:643-984 | when no committed transaction is torn or has a stale read, SSI commits no cycle |
| `SsiRuns.StepTaint` | txn.cc:1530-1567 | a step makes a transaction torn exactly when it misses an s2, told by the state before |
| `SsiRuns.Taints` | txn.cc:643-984 | at every moment of every run the flag is set exactly when the transaction has made such a step |
| `SsiRuns.SsiExactRun` | txn.cc:643-984 | a run of SSI commits a dangerous structure if and only if a transaction that it commits missed an s2 |
| `SsiRuns.SsiSerializable` | txn.cc:643-984 | a run of SSI in which no transaction that it commits missed an s2, or skipped the version of another that it commits, has a serial order, which replays to the same reads and database |
| `SerialOrders.SerialIffAcyclic` | txn.cc:159-190 | what was committed can be put in a serial order if and only if it has no cycle of dependencies |
| `Anomalies.TornAnomaly` | txn.cc:915-925 | a concrete run of SSI that commits a dangerous structure and a cycle, without stale reads |
| `Anomalies.SkewAnomaly` | dbcore/sm-oid.cpp:1045-1078 | a concrete run of SSI with a stale read that commits a cycle without any dangerous structure |
| `Anomalies.StaleHarmless` | dbcore/sm-oid.cpp:1045-1078 | a concrete run of SSI with a stale read that has a serial order and no cycle |
| `Anomalies.LateAnomaly` | dbcore/sm-oid.cpp:711-738 | a concrete run in which a transaction commits a version on top of one that is younger than its begin |
| `Replay.SerialAgrees` | txn.cc:159-190 | along any serial order of the committed transactions, running them one at a time gives each the versions it read and leaves the database as it is |
| `Replay.SsnSerial` | txn.cc:204-641 | the order by successor stamp, later commits first among equals, is a serial order of an SSN run and replays to the same reads and database |
| `Replay.MvoccSerial` | txn.cc:986-1100 | commit-stamp order is a serial order of an MVOCC run and replays to the same reads and database |
| `Replay.Serializable` | txn.cc:159-190 | such an order exists for every run of SSN and MVOCC |
| `Progress.FateOlder` | txn.cc:301-309 | whoever spins for an outcome spins for a transaction with a strictly smaller commit stamp that is still busy |
| `Progress.EndComes` | txn.cc:747-760 | whoever spins for a stamp to be published spins for a transaction that can take a step |
| `Progress.NoSpinMoves` | txn.cc:159-190 | whoever is committing or aborting and does not spin can take a step |
| `Progress.SomeoneMoves` | txn.cc:505-513 | behind every committing or aborting transaction there is one that can take a step: itself, one with an unpublished stamp, or one with a smaller stamp |
| `Progress.NoDeadlock` | txn.cc:610-626 | in every reachable state waits for outcomes go to smaller stamps, and while a transaction is committing or aborting some such transaction can move |
| `EpochSafety.StepInv` | dbcore/epoch.cpp:111-221 | every single read and write of enter, exit, quiesce and new_epoch keeps the invariant |
| `EpochSafety.RunInv` | dbcore/epoch.cpp:111-458 | the invariant holds in every state of every run |
| `EpochSafety.EpochSafe` | dbcore/epoch.cpp:320-412 | at every moment of every run a thread inside an epoch began after every reclaimed epoch |
| `EpochSafety.ReclaimedInOrder` | dbcore/epoch.cpp:147-221 | epochs are reclaimed once each and in order, at most one is outstanding, and opening the next finds none outstanding |
| `EpochSafety.StragglersCounted` | dbcore/epoch.cpp:120-143 | nstragglers is the number of threads flagged, about to be flagged, or about to sign off, and is positive at every decrement |
| `EpochSafety.SlowArmClean` | dbcore/epoch.cpp:387-394 | a thread that retries because it was too slow is neither flagged nor about to be |
| `EpochSafety.OpensExact` | dbcore/epoch.cpp:151-171 | with the mutex new_epoch opens the next epoch if and only if it is ready to, everything older than two epochs being reclaimed, and otherwise changes nothing |
| `EpochSafety.NeverStuck` | dbcore/epoch.cpp:111-143 | whenever no epoch can be opened, a thread is flagged, or somebody is signing off or reclaiming |
| `EpochExit.ForgottenExact` | dbcore/epoch.cpp:438-458 | a thread outside is flagged, or about to be, if and only if its last exit returned in the middle of an epoch change that had it on the list |
| `EpochExit.StuckRun` | dbcore/epoch.cpp:438-458 | a concrete run after which nobody is inside and no epoch can be opened |
| `EpochExit.StuckStays` | dbcore/epoch.cpp:147-152 | in such a state nothing but a thread entering can change that |
| `EpochExit.EnterAlone` | dbcore/epoch.cpp:352-411 | an unflagged thread that runs alone enters the current epoch |
| `EpochExit.ReentryFrees` | dbcore/epoch.cpp:403-407 | the next entry of the last flagged thread makes a stuck manager ready again |
| `EpochExit.QuiesceRenews` | dbcore/epoch.cpp:419-436 | a flagged thread that quiesces is next inside in the current epoch and owes nothing |
| `McsLock.StepInv` | dbcore/mcs_lock.h:80-141 | every memory access of attempt, acquire and release keeps the queue invariant |
| `McsLock.RunInv` | dbcore/mcs_lock.h:80-141 | the queue invariant holds in every state of every run |
| `McsLock.MutualExclusion` | dbcore/mcs_lock.h:95-141 | at most one node is between acquire and the end of release |
| `McsLock.FirstComeFirstServed` | dbcore/mcs_lock.h:99-115 | nodes enter in the order of their tail swaps; nobody is skipped or lost |
| `McsLock.HandsToNext` | dbcore/mcs_lock.h:130-141 | a hand-over wakes exactly the next queued node, which was waiting, and touches no other |
| `McsLock.EmptiesOrHands` | dbcore/mcs_lock.h:130-141 | the tail compare-and-swap of release empties the lock if and only if nobody else is queued |
| `McsLock.AttemptExact` | dbcore/mcs_lock.h:80-89 | an attempt takes the lock if and only if it is free, and otherwise leaves everything as it was |
| `McsLock.SwapExact` | dbcore/mcs_lock.h:99-115 | a tail swap enters at once if and only if the lock is free, and otherwise queues behind the last node |
| `McsLock.SomebodyMoves` | dbcore/mcs_lock.h:99-141 | while the lock is wanted its holder is inside, or the first in the queue or the one it waits for can take a step |
| `Adler.UpdateClosed` | dbcore/adler.cpp:44-66 | reducing at every byte, as section 8.2 of RFC 1950 does, equals reducing the closed sums once |
| `Adler.Concat` | dbcore/adler.cpp:44-66 | the sums of a concatenation from the sums of its parts |
| `Adler.RfcExact` | dbcore/adler.cpp:51-66 | what adler32 computes is the checksum of section 8.2 of RFC 1950 if and only if there is a byte to take in or both halves of the running checksum are reduced |
| `Adler.RfcMissed` | dbcore/adler.cpp:63-65 | continuing 0xffffffff over no bytes, where the definition returns it and adler32 returns 0x000e000e |
| `Adler.StandsIsChecksum` | dbcore/adler.cpp:63-65 | sums that agree with the totals modulo 65521 pack to what adler32 computes, which meets the RFC exactly under that condition |
| `Adler.TotalBound` | dbcore/adler.cpp:44-49 | up to 2^28 bytes the 64-bit sums do not wrap around |
| `Adler.Vanilla` | dbcore/adler.cpp:51-98 | the scalar form with one final modulo, in 64-bit arithmetic and for up to 2^28 bytes, is the reduced checksum, and that of the RFC if and only if there is a byte or nothing to reduce |
| `Adler.MergeIsChecksum` | dbcore/adler.cpp:68-83 | merging two sums computed independently gives the checksum of the whole, for right parts of up to 2^46 bytes |
| `AdlerSse.ChunkSums` | dbcore/adler.cpp:116-120 | the multiply-add products of sixteen bytes with the three weight vectors are their sum, their weighted sum and sixteen times their sum, with every lane in range |
| `AdlerSse.Round` | dbcore/adler.cpp:189-205 | one of the three equal rounds adds a chunk's sums exactly; the lane that reaches its sign bit is exact when read as unsigned |
| `AdlerSse.Chunk4` | dbcore/adler.cpp:122-237 | four chunks add their sum and weighted sum to the lanes, and no 16-bit or 32-bit lane overflows |
| `AdlerSse.Chunk1` | dbcore/adler.cpp:239-258 | one chunk adds its sum and weighted sum to the lanes without overflow |
| `AdlerSse.Reduce` | dbcore/adler.cpp:260-271 | the lane sums join the scalar sums exactly, within 32 bits, and are reduced |
| `AdlerCopy.Store` | dbcore/adler.cpp:35-39 | storing the next piece extends the copied prefix and leaves the rest of the destination alone |
| `AdlerCopy.Single` | dbcore/adler.cpp:44-49 | one byte keeps the sums standing for the bytes so far |
| `AdlerCopy.Align` | dbcore/adler.cpp:292-293 | at most fifteen bytes up to the boundary are summed and copied |
| `AdlerCopy.Block` | dbcore/adler.cpp:313-315 | the lanes hold the sums of one block, which is copied |
| `AdlerCopy.Blocks` | dbcore/adler.cpp:312-320 | whole blocks of up to 64 four-chunk steps are summed exactly and copied |
| `AdlerCopy.Singles` | dbcore/adler.cpp:322-328 | single chunks are summed exactly and copied until fewer than sixteen bytes are left |
| `AdlerCopy.Finish` | dbcore/adler.cpp:273-284 | the rest completes the checksum and the copy |
| `AdlerCopy.Sse` | dbcore/adler.cpp:286-334 | for every length, start address and running checksum, with blocks of up to 64 steps, the result is the reduced checksum, and that of the RFC if and only if there is a byte or nothing to reduce; a destination receives the source and keeps its rest |
| `AdlerCopy.Adler32` | dbcore/adler.cpp:348-350 | adler32 is the checksum of the RFC if and only if there is a byte to take in or nothing to reduce |
| `AdlerCopy.Memcpy` | dbcore/adler.cpp:341-354 | adler32_memcpy refuses buffers of different alignment and changes nothing, and otherwise copies and returns the checksum, of the RFC under the same condition |
| `ScHash.Bucket` | dbcore/sc-hash.h:412-428 | the bucket of every hash at every level lies within the table |
| `ScHash.PartIsDigit` | dbcore/sc-hash.h:425-428 | the i-th part of a hash is its i-th digit in the base of the level size, and no other number is |
| `ScHash.BucketIs` | dbcore/sc-hash.h:412-423 | the bucket of a hash at a level is counted by that digit, within the level or within the table |
| `ScHash.BucketsApart` | dbcore/sc-hash.h:412-423 | two buckets are the same or share no slot; they are the same exactly for the same digit and, with levels, the same level |
| `ScHash.BucketsUsed` | dbcore/sc-hash.h:412-423 | every bucket of every level is the bucket of some hash |
| `ScHash.HashSet.constructor` | dbcore/sc-hash.h:195-201 | a new set is sound and empty |
| `ScHash.HashSet.Find` | dbcore/sc-hash.h:335-345 | the slot of the element, or the end exactly when it is not in the set |
| `ScHash.HashSet.FreeSlot` | dbcore/sc-hash.h:288-296 | a free slot of a bucket exactly when the bucket is not full |
| `ScHash.HashSet.FindVictim` | dbcore/sc-hash.h:300-318 | an occupant one level up that can move down exactly when there is one |
| `ScHash.HashSet.Place` | dbcore/sc-hash.h:290-294 | the element joins the set in a slot of its own |
| `ScHash.HashSet.Evict` | dbcore/sc-hash.h:309-316 | the occupant moves, the element takes its slot, and nothing is lost |
| `ScHash.HashSet.Insert` | dbcore/sc-hash.h:273-326 | adds the element, or reports where it is, or refuses exactly when all its buckets are full and no single eviction helps; nothing else is lost and the table stays sound |
| `ScHash.HashSet.Erase` | dbcore/sc-hash.h:352-374 | removes exactly the element, and says whether it was there |
| `ScHash.HashSet.Size` | dbcore/sc-hash.h:217-222 | counts the elements |
| `VersionGc.Trim` | dbcore/sm-alloc.cpp:88-165 | keeps a prefix of the chain linked and stamped as before, puts exactly the rest, each object once and in order, unlinked into the pool, every snapshot at gc_lsn or later sees the same version, what is cut is older than a kept version no later than gc_lsn, and nothing is kept behind the first version that is enough |
| `VersionGc.KeptExact` | dbcore/sm-alloc.cpp:96-135 | what is kept ends with the first version behind the first committed one, in an unbroken row of committed versions, that is no later than gc_lsn, and is everything when there is none |
| `VersionGc.FindCut` | dbcore/sm-alloc.cpp:100-135 | the walk stops at the last version to keep, as `KeptExact` describes it, if and only if something is to be cut |
| `VersionGc.CutHere` | dbcore/sm-alloc.cpp:147-162 | the cut leaves the kept prefix a chain and recycles the rest |
| `VersionGc.Recycle` | dbcore/sm-alloc.cpp:148-161 | the inner loop unlinks, clears and pools every object of the rest in order |
| `Rcu.StepKeeps` | dbcore/rcu.cpp:387-514 | every step keeps every block in exactly as many places, or adds one new block |
| `Rcu.StepTimed` | dbcore/rcu.cpp:207-289 | every step keeps the age of the blocks in each list |
| `Rcu.RunKeeps` | dbcore/rcu.cpp:207-289 | both hold in every state of every run |
| `Rcu.BlocksConserved` | dbcore/rcu.cpp:423-514 | at every moment of every run each block made is in exactly one place: one list, deleted, or in use |
| `Rcu.ReusedInTime` | dbcore/rcu.cpp:207-289 | a block freed in epoch E leaves the cold stash for the reclaimed stash at the end of epoch E+2, and a block is ready for reuse or deleted only after its epoch was reclaimed; an epoch can be opened exactly when none is left to reclaim |
| `Rcu.AllocatesSize` | dbcore/rcu.cpp:423-463 | in every run an allocation hands out one more block, of exactly the size asked for |
| `Rcu.AllocExact` | dbcore/rcu.cpp:423-463 | in every run an allocation takes new memory if and only if no block of the size is in the stash or can be had from the reclaimed ones |
| `Rcu.StepBounded` | dbcore/rcu.cpp:387-421 | every step keeps one stash per size within its limit; only starting a cache raises a limit, by what was asked, and only stopping it drops one |
| `Rcu.FreesWhere` | dbcore/rcu.cpp:465-485 | in every run a freed block goes to the thread's own stash if and only if the thread caches its size, and otherwise to be deleted |
| `Holdings.Conserved` | benchmarks/tpce.cc:2525-2577 | liquidating up to n takes from the holdings exactly what the history rows record, and leaves a remainder only of an empty table |
| `Holdings.Rearranged` | benchmarks/tpce.cc:2521-2577 | the same for FIFO and LIFO order, with what remains back in key order and of one sign |
| `Holdings.InOrder` | benchmarks/tpce.cc:2521-2577 | holdings are used oldest first for FIFO and newest first for LIFO, all but the last used up, and logged in that order |
| `Holdings.Account.constructor` | benchmarks/tpce.cc:2463-2779 | an account without holdings is consistent |
| `Holdings.InsertableIs` | benchmarks/tpce.cc:2543-2545 | the history takes the rows of a trade if and only if their keys are new and differ from each other |
| `Holdings.NamesHolding` | benchmarks/tpce.cc:2532-2540 | a history row names its holding if and only if the holding's trade fits an int |
| `Holdings.HistoryClash` | benchmarks/tpce.cc:2532-2567 | two holdings whose trades differ by 2^32 cannot be used up by one sell, even with an empty history |
| `Holdings.TradeFacts` | benchmarks/tpce.cc:2463-2779 | what a trade takes, leaves and records: quantities conserved, signs and key order kept, every history column within 32 bits |
| `Holdings.Account.Liquidate` | benchmarks/tpce.cc:2521-2577 | the cursor loop, FIFO or LIFO, sell or buy, computes the specification on values, stops exactly when the history refuses a row, and its int arithmetic fits; holdings are used in the order of their keys, oldest first for FIFO and newest first for LIFO, and the i-th history row names the i-th |
| `Holdings.Account.Summarize` | benchmarks/tpce.cc:2486-2509 | the new summary row, and overflow exactly when the new position does not fit or a buy meets -2^31, before anything is written |
| `Holdings.Account.Open` | benchmarks/tpce.cc:2580-2600 | a new holding for the remainder, refused exactly when its key or that of its history row is taken |
| `Holdings.Account.Settle` | benchmarks/tpce.cc:2463-2779 | exactly when it overflows, is refused or succeeds; on success the summary stays the sum of same-signed holdings, the position moves by exactly the traded quantity, and the history gains exactly the planned rows, which record that amount; whatever was changed or removed is older than whatever was left alone, newer for LIFO |
| `SizeCode.BaseIsShift` | dbcore/size-encode.cpp:5-9 | the decode table is 16 - (15 >> e) |
| `SizeCode.Increasing` | dbcore/size-encode.cpp:17-37 | codes compare like the sizes they stand for |
| `SizeCode.Largest` | dbcore/size-encode.cpp:39-40 | the last code stands for 950272 |
| `SizeCode.EncodeBounds` | dbcore/size-encode.cpp:56-90 | the bounds of the encoder's tests are the first and last sizes of the exponents |
| `SizeCode.EncodeLeast` | dbcore/size-encode.cpp:55-106 | the branchy encoder returns the least code that covers the size, for every 64-bit size, and 0xff exactly above 950272 |
| `SizeCode.Rounding` | dbcore/size-encode.cpp:40-42 | rounding costs at most one sixteenth of the size |
| `SizeCode.ShiftFits` | dbcore/size-encode.cpp:142 | the int shift and its negation are defined if and only if align_bits is at most 30 |
| `SizeCode.PowersOfInt` | dbcore/size-encode.cpp:142 | at 31 the shift no longer fits an int |
| `SizeCode.EncodeAligned` | dbcore/size-encode.cpp:141-158 | for every 64-bit size: undefined exactly above 30 bits of alignment; otherwise the binary search finds the code that the branchy encoder gives for the number of units and the size becomes the value of the code, scaled back, never smaller than it was; the last 2^k - 1 sizes wrap around to zero |

## Left out

- Dependencies.SsiAcyclic: one direction; a stale read need not close a cycle (`Anomalies.StaleHarmless`).
- Adler.Vanilla: says nothing beyond 2^28 bytes, where the 64-bit sums may wrap around.
- Adler.MergeIsChecksum: says nothing of right parts beyond 2^46 bytes, where the product may wrap around.
- VersionGc.Trim: gc_lsn is a parameter that does not move during the walk; concurrent readers of the chain are not modelled.
- Rcu.ReusedInTime: an epoch change is one step, so a block freed while new_epoch visits the threads is outside this model.
- ScHash.HashSet.Insert: shifts and masks of the hash are division and remainder, for any number of buckets per level.
- Holdings.Account.Settle: for a positive quantity, as TPC-E has it; what the engine undoes when a table refuses a row is not modelled here.
- EpochSafety.EpochSafe: threads are registered under the mutex, as in the source, but are not deregistered.
- SSN's read-mostly optimisation, safe snapshots and the read-only optimisation of SSI: transactions are ordinary ones, and SSN has its early checks, as the ermia_si_ssn target builds it.
- Read committed and plain snapshot isolation, which promise less.
- Weak memory ordering: steps are sequentially consistent.
- Reading several fields of a context and then verifying its owner: one step, at the moment of the last field.
- The allocation of reader bit positions: every running transaction has a slot of its own.
- Phantom checks, log space and Masstree: a failure is an abort at any of the points where the source may fail; inserts are on fresh records.
- Repeated updates of one record by one transaction, and reads of one's own versions.
- The early tests of Update under SSI (txn.cc:1187-1228): an arbitrary early abort of a transaction with a nonzero ct3.
- The copy of xstamp to a new version (txn.cc:1252), which post-commit overwrites before anyone can read the version.
- Payloads: a version is known by its number, so the same reads means the same versions.
- Logging, recovery, replication, checkpoints and the OID manager beyond install, unlink and visibility.
- Termination of commits under a fair schedule.
- Verdicts.SsiVerdict: an active or younger reader is found by its slot, which may have changed hands since the bitmap was copied, so it need not have read the version; the early refusal of an update is that of any possible pivot.
- The links and headers of the RCU lists, thread deregistration, and the thresholds that start a collection.
- Iteration over the hash set, destructors and rvalue forwarding; presence bits and slots are one optional value.
- Prices and the buy and sell values of a trade, and the tables other than holdings, summary and history.
- mcs_lock's ext_qnode and critical_section wrappers, dynarray, RDMA, option parsing and the benchmark drivers, which would only add easy members.

# Replicated password store: a verified model

This project models the storage and coordination core of the distributed password
manager: the chunk store (`pkg/chunk/store.go`), the chunk server's primary, replica and
recovery handlers (`pkg/chunk/server.go`), the master's log, sequence counter, registry
and handlers (`pkg/master/*.go`), and the part of the vault client that names keys and
orders "number, primary, log" (`pkg/vault/vault.go`).

| file | what it holds |
|---|---|
| `lww.dfy` | the last-writer-wins image; convergence, interleaving, refinement to a plain map |
| `codec.dfy` | `sanitize` / `unsanitize` and exactly when they are a round trip |
| `letters.dfy` | the same codec letter by letter: what each character and each escape becomes |
| `disk.dfy` | one file per key, write-through, reload, and exactly when a reload is faithful |
| `store.dfy` | the mutable `Store` |
| `wal.dfy` | the log, the exact reach of recovery, numbers over restarts |
| `registry.dfy` | membership and the timed failure detector |
| `master.dfy`, `chunk_server.dfy`, `vault.dfy` | the mutable servers and the client |
| `protocol.dfy` | all of it as one state machine over a lossy, duplicating, reordering network |
| `guarantees.dfy` | safety of every run, exactly when a master restart is harmless, and what runs do not guarantee |
| `serial.dfy` | the runs in which a rejoining chunk really is fully caught up |
| `holes.dfy` | a run after which it is not, and never will be by recovery |
| `membership.dfy` | the timed registry refines the machine's alive map |
| `refinement.dfy` | calls on the client, the chunk servers, the stores and the master refine the machine's steps |

The objects of the program are classes whose methods are proved against the functions
`Apply`, `Persist`, `Scan`, `After`, `MaxSeq`, `Registered`, `Beaten`, `Swept` and `Next`;
the state machine is built from the same functions. `refinement.dfy` (with `membership.dfy`)
proves the two levels related. A state matches the running system when it shows the master's
fields and the memory and files of every running chunk server, with the other chunks down and
no call under way. From a matching state a save or delete (wherever it stops, the primary
running or not), a registration with its replay, a replicate, a heartbeat, a monitor tick, a
master restart, a crash and a reload each do what some run of protocol steps does, and end in
a matching state, so calls can be chained; the run is clean while the counter has room, and
for a restart when none of the numbers sent is above the log's maximum. Dominance, agreement,
survival of acknowledged operations and hidden deletes are then proved of the stores
themselves. All this is for calls that run undisturbed one after another, with file writes
that succeed and addresses that equal identifiers.

The state machine allows more than the program does: a client's request may arrive long after
it was sent, more than once, or when the client has gone; a registration may be answered more
than once; the entries of one recovery answer may arrive one by one, in any order, mixed with
live traffic, or not at all; the primary goes on to the next replica without waiting for the
answer of the last. For what holds in every run this costs nothing. Where a theorem says that
something fails in some run, as the only-if half of `HarmlessIffClean` does, the run may make
use of such late deliveries; the run of `HarmfulRestart` makes none. Three steps merge two critical sections of the
master into one: `Issue` and `FetchReplicas` (registry, then counter) and `AnswerRegister`
(registry, then log).

## What holds, and exactly when

- **Primary dominance** and **no resurrection** hold in every reachable state and over every
  run, whatever is lost, duplicated, reordered, crashed, reloaded, restarted or wrapped.
- **Agreement** and **survival of acknowledged operations** hold in every run of clean steps:
  no master restart forgets a number a client has sent or still holds, and the 64-bit counter
  does not wrap round to such a number. This is exact, step by step (`HarmlessIffClean`): in
  every continuation of a step that is clean from there on each number stands for one operation,
  all copies agree and the primary serves all that was acknowledged, each of the three if and
  only if the step itself was clean. For a restart that means that every number sent or held
  is at most the largest logged one; a number issued to a client that has not yet sent it
  counts, because the restart would hand it out twice. The exactness is relative to a network
  that may deliver a request late. `HarmfulRestart` runs every initial state into an
  acknowledged, durable, unlogged operation, restarts the master there, and ends with another
  operation acknowledged and thrown away.
- **Convergence** of a set of operations in all orders holds if and only if no two
  operations that win the same key differ.
- **Recovery** brings a store level with the log if and only if it has no unsuperseded hole
  at or below the number it reports. The program's own description ("fully caught up",
  README.md:303) has no such condition; the code is followed here. `holes.dfy` runs the
  protocol from any initial state into a hole: one missed replicate, one delivered one, and
  the replica that then reloads, registers and replays lacks an acknowledged, logged
  operation, which no later registration of it is answered with, and no recovery message
  carries to it unless a registration made before the hole is answered again. `serial.dfy`
  proves the claim for runs in which writes complete one at a time and chunks rejoin only by
  reload, registration and replay.
- **The file-name codec** is a round trip exactly on ASCII keys with no `_` followed by two
  hex digits, over all byte strings, ill-formed UTF-8 included; a reopened store knows its
  keys if and only if all of them are of that kind.
- **Replication**: a handled write is sent to every other alive chunk if and only if there
  is none, or the primary's query is answered by a master that believes it up and every one
  of them accepts the connection. The acknowledgement does not depend on it, against the
  described write path.
- **Durability of the log**: what a client operation logs is on the primary's disk unless an
  earlier failed file write left memory ahead of the disk on that key and the operation was
  stale in memory. `LoggedWithoutAFile` shows the exception happening.

## Assumptions

- A file write or log write is atomic and faithful. A failing file write is modelled in the
  store and the handlers (`diskOk`): it leaves memory ahead of the disk, and
  `PersistKeepsMirror` says exactly when. The state machine assumes writes succeed.
- In the state machine keys are safe for the codec; a chunk's address never changes.
- Chunk memory and the directory change together (the program holds its lock over both).
- Monitor ticks come on time, every three seconds.
- A string is a sequence of bytes, as in the program; iterating over one decodes UTF-8, an
  ill-formed byte counting as U+FFFD.

## Model

The main results come first, then what they rest on, then the operations one by one.

| member | source | states |
|---|---|---|
| Guarantees.PrimaryDominance | pkg/chunk/server.go:68-116 | in every reachable state the primary's number for a key is at least that of every disk, memory, log record, acknowledgement, message and handler |
| Guarantees.DeletesStayBuried | pkg/chunk/store.go:55-97 | in every run, restarts that forget numbers and a wrapped counter included, a chunk that durably holds a delete keeps it or a larger number and shows the key only at a larger number |
| Guarantees.Agreement | pkg/vault/vault.go:53-90 | over every clean run two copies with one number anywhere are the same copy, and exactly what one client sent |
| Guarantees.AckedOperationsSurvive | pkg/chunk/server.go:86-116 | after an acknowledgement the running primary always serves that operation or one with a larger number |
| Guarantees.HarmlessIffClean | pkg/master/server.go:23-25 | after any step, restarts and a wrapping counter included, all clean continuations bind each number to one operation, agree on all copies, and serve everything acknowledged, each of these if and only if no number sent or held can come up again (for a restart: none exceeds the log's maximum) |
| Guarantees.HarmfulRestart | pkg/master/server.go:23-25 | from every initial state: a clean run to an acknowledged, unlogged operation, a restart that is not clean there, and a clean run on to another operation acknowledged and not served |
| Serial.MissingIsASuffix | pkg/chunk/server.go:207-228 | in every serial run, with master restarts anywhere, what a chunk misses is a suffix of the log by number |
| Serial.RejoinIsFullyCaughtUp | README.md:303 | in every serial run a chunk that reloads, registers and replays then holds the whole log, exactly as the primary does |
| Holes.HoleArises | README.md:303 | from every initial state with a running replica a clean run ends with that replica reloaded, registered and replayed, yet without an acknowledged and logged operation |
| Holes.HoleIsPermanent | pkg/chunk/server.go:207-228 | whatever happens next, the missing operation is in no recovery message to that chunk, unless the master answers a registration made before the hole, and in no answer to a later registration |
| Holes.NeverSentAgain | pkg/master/server.go:75-91 | over any run no recovery message with an operation at or below the number a chunk has reached is sent to it, short of an earlier report being answered |
| Wals.RecoveryReach | pkg/master/wal.go:50-60 | recovery covers the log if and only if every record at or below the reported number is held or superseded; keys without newer records are untouched |
| Lww.ApplyAllJoins | pkg/chunk/store.go:39-69 | any stream of puts and deletes, in any order with any repetition, computes the join of the image with the set offered |
| Lww.StrongConvergence | pkg/chunk/store.go:43-45 | streams offering the same operations leave identical entries and identical `lastSeq` |
| Lww.ConvergesIffDecided | pkg/chunk/store.go:43-45 | all rearrangements and repetitions agree if and only if no two winners of one key differ |
| Lww.ReplayNeedsNoLock | pkg/chunk/server.go:222-228 | any interleaving of the recovery loop with live traffic equals running the two streams one after the other, either way |
| Lww.SequentialRefinement | pkg/chunk/store.go:39-97 | what readers are shown is what overwriting a plain map in any order ascending by number shows |
| Lww.NoResurrection | pkg/chunk/store.go:55-79 | after an effective delete only a write with a larger number makes the key visible, with that write's value |
| Codec.RoundTripIffSafe | pkg/chunk/store.go:143-176 | over all byte strings, decoding undoes encoding exactly on ASCII keys without `_` and two hex digits |
| Codec.CodecNeverGains | pkg/chunk/store.go:143-176 | every unsafe key, ill-formed UTF-8 included, comes back strictly lighter |
| Codec.SanitizedUtf8 | pkg/chunk/store.go:143-154 | of a well-formed UTF-8 key the loop encodes each character by its code point, not byte by byte |
| Letters.SafeKeyExactly | pkg/chunk/store.go:162-176 | a key is safe iff all its bytes are below 0x80 and no `_` is followed by two of 0-9, a-f, A-F |
| Codec.SanitizedInjective | pkg/chunk/store.go:116 | distinct safe keys never share a file |
| Disk.ReloadExact | pkg/chunk/store.go:120-141 | for every scan order a reload rebuilds entries, tombstones and `lastSeq` of the mirrored memory |
| Disk.ReopenIffSafe | pkg/chunk/store.go:111-141 | after any history a reopened store knows the same keys if and only if all are safe, and on safe keys is the same store |
| Disk.PersistKeepsMirror | pkg/chunk/store.go:39-69 | an operation keeps disk and memory mirrored if and only if its file write succeeds or it was stale |
| Disk.StreamKeepsMirror | pkg/chunk/store.go:111-118 | over any stream on safe keys the disk mirrors memory |
| ChunkServers.ReplicatedIff | pkg/chunk/server.go:77-86 | a handled operation is sent to every other alive chunk if and only if there is none, or the query is answered, the primary believed up and each of them can be dialled |
| Vaults.LoggedIsDurableIff | pkg/vault/vault.go:76-90 | after a client operation memory covers the log; the disk does too if and only if the operation was not logged while stale in memory and missing on disk |
| Vaults.MirroredLogIsDurable | pkg/vault/vault.go:76-90 | while the disk mirrors memory, whatever a client operation logs is on the primary's disk, even if that operation's own file write fails |
| Vaults.LoggedWithoutAFile | pkg/vault/vault.go:40-93 | a failed file write, a master restart and a second save of the site end in a reported success and a logged operation while the primary's directory is empty |
| Registries.AliveExactly | pkg/master/registry.go:30-55 | after any timed run a chunk is a member iff it ever registered, carries the address of its last beat or registration, and is alive iff no sweep since found that more than six seconds old |
| Registries.AliveIsRecent | pkg/master/registry.go:77-90 | at every instant an alive chunk's last beat or registration is at most nine seconds old |
| Registries.NineSecondsIsTight | pkg/master/registry.go:77-90 | a run in which it is nine seconds old |
| Registries.PunctualNeverDead | pkg/master/registry.go:77-90 | a chunk whose beats are never more than six seconds apart is alive after every prefix of the run |
| Refinement.ClientRefines | pkg/vault/vault.go:40-166 | wherever a save or delete stops, a primary that is down included, its effect on primary, log, counter and traffic is that of a run of protocol steps |
| Refinement.SaveRefines | pkg/vault/vault.go:40-93 | from a state that matches the master and all running chunks, a call of `Save` ends in a matching state by a run that is clean while the counter has room; when it reports success, is acknowledged and is logged, and which messages it sends, are given exactly |
| Refinement.DeleteRefines | pkg/vault/vault.go:135-166 | the same for `Delete` |
| Refinement.RegisterRefines | pkg/chunk/server.go:197-234 | registration and replay lead from a matching state to a matching state by such a run, and put on the network one report and the logged operations above its number |
| Refinement.StoresAreDominated | pkg/chunk/server.go:68-132 | at any time the primary's store holds every key of every running store, and everything logged, at that number or above, and every store's files mirror its memory |
| Refinement.StoresAgree | pkg/chunk/store.go:43-45 | after clean runs two running stores that hold the same number hold the same key and entry under it |
| Refinement.AckedIsStored | pkg/chunk/server.go:86-116 | after any clean run of calls the running primary's store holds each acknowledged operation or a larger number |
| Refinement.DeletedStaysHidden | pkg/chunk/store.go:55-97 | after any run of calls a store that durably held a delete shows the key only at a larger number |
| Vaults.OthersLeaveMine | pkg/vault/vault.go:169-204 | no stream of other users' operations changes any entry of a user |
| Vaults.UsersMeetIff | pkg/vault/vault.go:202-204 | two users can share a key if and only if one user's prefix extends the other's |
| Vaults.EntryKeyInjective | pkg/vault/vault.go:202-204 | for usernames without a slash the key determines user and site |
| Masters.Server.HandleGetPrimary | pkg/master/server.go:93-121 | answered iff the primary is up; then the counter rises by one and the alive set is split into primary and replicas, none lost or repeated |
| Masters.AddressesAreAnswered | pkg/master/server.go:75-121 | from end to end: the primary and the replicas are answered under the addresses they registered, and after a heartbeat under the address it carried |
| ChunkServers.Server.HandleWrite | pkg/chunk/server.go:68-87 | applies first, then replicates to the master's split or to nobody, reaching all alive chunks exactly when it can, and acknowledges unless the file write failed |
| ChunkServers.Server.HandleDelete | pkg/chunk/server.go:102-117 | the same for deletes |
| Vaults.Client.Save | pkg/vault/vault.go:40-93 | succeeds iff the master answers, the primary is up and dialled, and request, file write and answer get through; is logged iff the notice gets through as well; and for every other stopping point what it did to primary, log and counter |
| Vaults.Client.Delete | pkg/vault/vault.go:135-166 | the same for deletes |
| Vaults.Client.List | pkg/vault/vault.go:169-198 | exactly the user's live non-empty sites on that store, each once |
| Protocol.StepKeepsInv | pkg/chunk/server.go:68-132 | every step keeps: whatever is stored, logged, acknowledged or under way was applied by the primary first and is covered by its disk |
| Guarantees.NumbersSurviveRuns | pkg/chunk/store.go:120-141 | through any run a chunk's durable number for a key never decreases |
| Guarantees.ReissueIffUnlogged | pkg/master/server.go:25 | after a restart of the master some clean run issues the number of an operation that was sent before if and only if some such number exceeds the log's maximum |
| Guarantees.DeletesStayDeleted | pkg/chunk/store.go:55-97 | in clean runs the same already follows when the chunk merely held the number of a delete or above, whether or not it stored the tombstone itself |
| Guarantees.AckSwallowed | pkg/master/server.go:25 | from any sound state whose counter stands below a number the primary holds (`HarmfulRestart` runs into one), a second write gets that number, is discarded as stale and is still acknowledged |
| Guarantees.AckWithoutReplication | pkg/chunk/server.go:77-86 | a requested write that was never replicated can be acknowledged with every other chunk unchanged and still no replicate sent or being sent |
| Guarantees.NoNumberBeforeThePrimaryRegisters | pkg/master/server.go:93-111 | after a restart no number is issued before the primary registers again |
| Serial.SerialRunIsARun | pkg/chunk/server.go:197-234 | a serial run is a run of the protocol |
| Holes.NeverAnsweredAgain | pkg/master/wal.go:50-60 | over any run, an operation at or below the number a chunk has once reached is in no answer to a later report of that chunk |
| Protocol.AnswerIsWhatIsMissing | pkg/master/server.go:79-90 | the answer to a registration is exactly the logged operations with a number above the reported one |
| Protocol.MessagesComeFrom | pkg/chunk/server.go:68-132 | each message enters the network by the one step that sends it, with that step's content, and none is ever withdrawn |
| Protocol.ChunksChangeBy | pkg/chunk/store.go:28-69 | a chunk changes by one delivered operation, a crash that leaves only its files, or a reload of them |
| Protocol.CounterChangesBy | pkg/master/server.go:93-113 | but for a restart, only an answered primary query of a master that believes the primary up moves the counter, by one modulo 2 to the 64 |
| Protocol.LogGrowsBy | pkg/master/server.go:161-164 | only a notice lengthens the log, at its end |
| Protocol.AcksGrowBy | pkg/chunk/server.go:86-116 | only the end of a handler acknowledges |
| Protocol.HandlersDieWithThePrimary | pkg/chunk/server.go:68-117 | a crash of the primary ends its handlers |
| Protocol.MembersChangeBy | pkg/master/registry.go:30-55 | only a registration adds a member and only a master restart removes one |
| Protocol.LivenessChangesBy | pkg/master/registry.go:30-90 | a member is alive after a registration or beat, dead after a suspicion, and otherwise as before |
| Membership.SweepIsSuspicions | pkg/master/registry.go:77-90 | one monitor tick is a run of suspicion steps of the state machine |
| Lww.LastSeqIsMaxOffered | pkg/chunk/store.go:39-69 | `lastSeq` is the largest number ever offered although rejected calls return before touching it |
| Lww.SortedReplay | pkg/chunk/store.go:39-97 | the same for the order an insertion sort by number produces |
| Lww.NumbersNeverDecrease | pkg/chunk/store.go:43-51 | a key's number and `lastSeq` never decrease |
| Disk.PersistTrails | pkg/chunk/store.go:43-53 | through failing file writes the disk never runs ahead of memory, and an operation is on disk exactly when it was written or was held there already |
| Wals.IssuedIncrease | pkg/master/metadata.go:22-27 | numbers issued in one master run strictly increase and exceed every logged number, whatever the log order |
| Wals.AfterIsFilter | pkg/master/wal.go:50-60 | the records sent for recovery are exactly the logged ones above the number |
| Wals.AfterKeepsOrder | pkg/master/wal.go:54-58 | in log order, whatever the order of the numbers |
| Wals.AfterKeepsCounts | pkg/master/wal.go:54-58 | each as often as it was logged |
| Wals.HoleIsNeverRefilled | README.md:303 | the smallest log on which one recovery leaves a store without an operation below its number |
| ChunkServers.FanoutReaches | pkg/chunk/server.go:80-84 | the primary sends the operation to exactly the listed addresses it can dial |
| ChunkServers.FanoutCounts | pkg/chunk/server.go:80-84 | an address that can be dialled is sent the operation as often as it is listed |
| ChunkServers.FanoutKeepsOrder | pkg/chunk/server.go:80-84 | in the order of the list |
| ChunkServers.SentToOthers | pkg/chunk/server.go:77-84 | whoever is sent a handled operation is an alive chunk other than the primary that can be dialled |
| ChunkServers.SentOnce | pkg/chunk/server.go:77-84 | where addresses are distinct nobody is sent it twice |
| Letters.AsciiIsEscaped | pkg/chunk/store.go:146-150 | an ASCII character other than a letter, a digit, `-` and `_` becomes `_` and two lower-case hex digits, high digit first |
| Letters.BeyondAsciiIsEscaped | pkg/chunk/store.go:145-150 | any other character becomes `_` and its code point in lower-case hex without leading zeros |
| Letters.PlainKeyIsItsStem | pkg/chunk/store.go:146-148 | a key of letters, digits, `-` and `_` is its own stem |
| Letters.StemCharacters | pkg/chunk/store.go:143-154 | a stem consists of letters, digits, `-` and `_` |
| Letters.DigitsAreDecoded | pkg/chunk/store.go:165-171 | `_` and two hex digits of either case decode to the byte they name |
| Letters.OthersPassThrough | pkg/chunk/store.go:165-173 | any other byte decodes to itself |
| Letters.FirstRuneExactly | pkg/chunk/store.go:145 | ranging over a key reads a character exactly where its UTF-8 encoding stands, and otherwise one byte as U+FFFD |
| Disk.ScanLastWins | pkg/chunk/store.go:120-139 | on any directory, of the files that decode to one key the last scanned is kept |
| Disk.ScanLargest | pkg/chunk/store.go:135-137 | on any directory `lastSeq` is the largest number in any file |
| Disk.FilesAreStems | pkg/chunk/store.go:116-160 | the files scanned are the stems with `.json`, and each stands for its decoded stem |
| Registries.ReportIsTheLast | pkg/master/registry.go:30-41 | the number kept for a member is that of its last registration |
| Holes.NeverSentAfterReports | pkg/master/server.go:75-91 | and none at all where its reports under way are all at or above that number |
| Codec.Sanitize | pkg/chunk/store.go:143-154 | the loop computes the per-character encoding of the whole key |
| Codec.Unsanitize | pkg/chunk/store.go:162-176 | the hand-advanced loop computes the left-to-right decoding |
| Stores.Store.constructor | pkg/chunk/store.go:28-37 | a store opened on a directory holds the scan of its files |
| Stores.Store.LoadFromDisk | pkg/chunk/store.go:120-141 | the scan loop, a later file for the same key winning |
| Stores.Store.Put | pkg/chunk/store.go:39-53 | applies the write unless the key is held at its number or above, writes through, and reports a failed file write after changing memory |
| Stores.Store.Delete | pkg/chunk/store.go:55-69 | the same for a tombstone |
| Stores.Store.PersistEntry | pkg/chunk/store.go:111-118 | one file under the sanitized name |
| Stores.Store.Get | pkg/chunk/store.go:71-79 | finds exactly the visible keys and returns the stored entry |
| Stores.Store.KeysWithPrefix | pkg/chunk/store.go:87-97 | exactly the visible keys under the prefix, each once |
| Stores.Reopen | pkg/chunk/store.go:28-37 | reopening a mirrored store gives the same store |
| Wals.WAL.Append | pkg/master/wal.go:38-48 | the record goes to the end of the log |
| Wals.WAL.EntriesAfter | pkg/master/wal.go:50-60 | the records numbered above the argument, in log order |
| Wals.WAL.MaxSeqNum | pkg/master/wal.go:62-72 | a number that bounds every record and is attained, or zero |
| Registries.Registry.Register | pkg/master/registry.go:30-41 | a fresh alive record replaces any old one |
| Registries.Registry.Heartbeat | pkg/master/registry.go:43-55 | revives and re-addresses a member, adds nobody |
| Registries.Registry.AliveChunks | pkg/master/registry.go:57-67 | the alive records, each once, in some order |
| Registries.Registry.MonitorTick | pkg/master/registry.go:77-90 | marks dead exactly the alive chunks silent for more than six seconds |
| Membership.RegisterIsAnswered | pkg/master/server.go:75-91 | registering moves the alive map as the state machine's registration step does |
| Membership.HeartbeatIsBeat | pkg/master/registry.go:43-55 | a heartbeat is the state machine's beat step |
| Membership.ListedIsAlive | pkg/master/server.go:93-105 | the primary and the replicas the state machine lists are those of the registry |
| Masters.Metadata.NextSeqNum | pkg/master/metadata.go:22-27 | the counter moves to its 64-bit successor and that number is returned |
| Masters.Metadata.SetSeqNum | pkg/master/metadata.go:35-41 | the counter only ever rises to the argument |
| Masters.Server.constructor | pkg/master/server.go:23-25 | a started master has an empty registry and a counter at the log's maximum |
| Masters.Server.HandleRegister | pkg/master/server.go:75-91 | registers the chunk and answers with the records above its number |
| Masters.Server.HandleWALNotify | pkg/master/server.go:161-164 | appends the notified record |
| ChunkServers.Server.HandleRead | pkg/chunk/server.go:89-100 | serves exactly the visible keys |
| ChunkServers.Server.GetReplicaAddrs | pkg/chunk/server.go:165-183 | a replica query that reaches the master consumes a number, also when its answer is lost; unanswered or refused it yields no replicas |
| ChunkServers.Server.HandleReplicate | pkg/chunk/server.go:119-132 | a replica applies the operation under the same rule |
| ChunkServers.Server.Replay | pkg/chunk/server.go:221-230 | the recovery loop applies every entry in turn, ignoring file errors |
| ChunkServers.Server.RegisterWithMaster | pkg/chunk/server.go:207-232 | an undisturbed registration leaves the store recovered from the log and the chunk a member |
| Refinement.ReplicateRefines | pkg/chunk/server.go:119-132 | a replicate handled is the delivery step, between matching states |
| Refinement.RestartRefines | pkg/master/server.go:23-25 | a master started on the saved log is the restart step, between matching states, and clean when no number sent exceeds the log's maximum |
| Refinement.ReopenRefines | pkg/chunk/store.go:28-37 | a chunk that is down, started again on its files, is the reload step, between matching states |
| Refinement.CrashRefines | pkg/chunk/store.go:28-37 | a chunk that dies is the crash step: its memory is gone, its files stay, the rest still matches |
| Refinement.HeartbeatRefines | pkg/master/registry.go:43-55 | a heartbeat handled is the beat step, between matching states |
| Refinement.TickRefines | pkg/master/registry.go:77-90 | a monitor tick is a run of suspicions, between matching states |
| Refinement.StartRefines | pkg/master/server.go:23-25 | a first master process matches the initial state with every chunk down |

## Left out

- TLS, gob encoding, sockets and logging: replaced by the message set and by parameters saying what got through.
- AES-GCM, PBKDF2, bcrypt, user registration, HTTP routes, sessions, the command line and the web frontend: stored values are opaque bytes.
- Read routing: the round-robin index picks from a map scanned in arbitrary order, so only membership of the chosen chunk would be true.
- The two-second heartbeat timer and the registration retry loop: beats arrive at arbitrary times, and only the attempt that gets through is modelled.
- Aliasing of registry records: `AliveChunks` hands out pointers that are read after the lock is released; records are values here.
- Over-long file names, case-insensitive file systems, corrupt or partly written files and a log file that fails to parse.
- Registries.Registry.MonitorTick: time between two reads of the clock inside one tick is not modelled; a tick has one instant.
- Serial.RejoinIsFullyCaughtUp: holds for serial runs only, because failed replication leaves holes that no later recovery refills (`Holes.HoleArises`, `Holes.HoleIsPermanent`).
- Refinement.ClientRefines: does not cover a failing file write at the primary, because the state machine assumes writes succeed; `Vaults.LoggedIsDurableIff` says what such a failure costs.
- Primary failover: the primary never changes in the program, so there is no election.

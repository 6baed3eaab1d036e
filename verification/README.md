# Credis: a verified model of its core

Credis is a single-threaded Redis server. This project models the parts of it that must agree with each other and proves
that they do: the keyspace with lazy expiry and per-key versions, the RESP parser and printers, the batch loop with
MULTI/EXEC/WATCH, blocking clients, the append-only file with its background rewrite, the replica's stream reader, the
geohash codec, the connection pool's dirty list and the pub/sub maps.

## How it is laid out

| file | what it holds |
|---|---|
| Base, Decimal | byte strings, options, 64-bit wrap-around, decimal text |
| Resp, Replica | RESP parser and printers; the replica's pending buffer |
| StreamIds, SortedSets, Keyspace, Store | stream ids, sorted sets, the keyspace as a value, the `Store` class |
| Blocking | wait queues as a value and as the `BlockingManager` class |
| Commands, Handlers | what each command does as a value; the handlers as methods over the classes |
| Sessions, CommandLoop, Dispatch | transactions and runs of clients; the batch loop as a value and as methods |
| SessionLaws, QueuedNames | transactions as a client's own history; queued commands against immediate ones |
| Laws, ClientLaws, StreamLaws | what single commands mean to a client |
| Invariants, Expiry, ExpiryRuns, Wakeups | what every command keeps; lazy expiry; blocked clients |
| Snapshot, Rebuild, Aof | the rewrite child, what its file means, the append-only file |
| WriteEffects, Transactions, Discards | which commands can write; batches and transactions against the file |
| Recovery, RecoveryLimits | recovery over whole runs; what the file does not bring back |
| Geo, ConnectionPool, PubSub | geohash codec, dirty list, subscriptions |

Every stateful part exists twice. A pure function says what an operation does to the state as a value; a class or a loop
does it step by step as the code does, and is proved to end where the function says. The properties over whole runs are
then proved about the functions: recoverability, snapshot meaning, no lost wake-up, optimistic locking, invisible expiry,
pipelining and chunking.

## What the model assumes

- Bytes are characters; strings, keys and payloads are arbitrary byte strings.
- A command reads the clock once: steady time for deadlines, wall time for generated stream ids. Where a run needs it,
  steady time does not run backwards.
- Scores are totally ordered values standing for doubles without NaN; reading and printing them are parameters (`Env`).
  Where a file is read back, printed scores are assumed to parse to themselves.
- A hash table is a map visited in any order.
- Lengths are accumulated in 32 bits and wrap; stream sequence numbers wrap in 64 bits.
- `live` is true when a client is served and false when the append-only file is processed at start-up.
- The recovery theorem asks for batches of whole commands, each durable: no SET with a time to live, no XADD with id `*`,
  no BLPOP and no blocking XREAD; rejected and unknown commands are allowed. Transactions of such commands are allowed in
  one batch when they commit with what can write typed as it is run, or are discarded with nothing that can write. No
  collection may be empty when a rewrite starts. What happens otherwise has its own theorem each:
  `RecoveryLimits.TtlRecovers`, `RecoveryLimits.GeneratedIdRecovers`, `RecoveryLimits.BlpopRecovers`,
  `RecoveryLimits.PushRecovers`, `RecoveryLimits.XreadRecovers`, `Transactions.TransactionRecovers`,
  `Recovery.LaterWritesSurvive` and `Aof.ForkRestores`.

## Where the code is not what one would expect

Each of these is followed as it is, with the exact condition proved.

- A command is accepted up to two bytes before it is complete (`Resp.FramePrefix`). A replica whose delivery ends there
  is stuck for good (`Replica.UnsafeCut`, `Replica.SyncIffSafe`).
- A push of several values with two or more waiters loses values (`Wakeups.PushHandsOver`).
- A range whose `stop` lies before the first element still returns the first element (`Laws.RangeExact`).
- XREAD BLOCK with a bare integer other than 0, or with a dashed id that does not parse, waits as if nothing had been read
  (`Wakeups.ReaderIsExact`, `Wakeups.WaitsOnlyWhenQuiet`).
- A write that arrives without its last one or two bytes is logged cut short, and later writes in the file are lost
  (`Recovery.LaterWritesSurvive`).
- Writes queued in a transaction are logged when they are queued, so a discarded or aborted one comes back after a restart
  (`Transactions.TransactionRecovers`, `Discards.AlwaysDiscardable`, `Recovery.DiscardExample`), and one that is committed
  after another client's write comes back in the other order (`Recovery.InterleavedExample`).
- Pops by BLPOP, at once or by a later push, are not logged, so popped elements come back after a restart
  (`RecoveryLimits.BlpopRecovers`, `RecoveryLimits.PushRecovers`, `RecoveryLimits.WokenPopExample`).
- A logged time to live or generated id is worked out again on replay (`RecoveryLimits.TtlRecovers`,
  `RecoveryLimits.GeneratedIdRecovers`).
- GEOADD can be refused because of an entry that expires at that very instant (`Expiry.GeoaddSeesTheTick`).
- A client that blocks twice breaks the bijection of queues and index (`Blocking.BlockBijective`).
- Emptied collections stay in the keyspace but are dropped by a rewrite (`Rebuild.KeptIsLive`, `Aof.ForkRestores`).
- A stream id with a negative timestamp does not survive its own text (`StreamIds.IdRoundTrip`).
- A geohash score at a coordinate's maximum needs more than 52 bits (`Geo.ScoreFits`).
- The names of queued commands are not upper-cased, so other spellings fail at EXEC (`QueuedNames.QueuedName`,
  `QueuedNames.QueueIsImmediate`).

## Model

| member | source | states |
|---|---|---|
| Resp.ParseIntUntilCrlfAt | src/protocol/resp_codec.cpp:34-52 | The digit loop computes the scanned value in a 32-bit accumulator, with its sign and the position after CRLF, and fails exactly where the specification scan does. |
| Resp.ParseOneInto | src/protocol/resp_codec.cpp:95-131 | The pointer loop returns exactly the arguments and consumed length of the recursive specification parser, or fails with it. `parse_one` (lines 56-93) runs the same statements on its own vector. |
| Resp.ParseLocal | src/protocol/resp_codec.cpp:56-93 | A successful parse depends only on the bytes up to two before its end: any input that agrees there parses to the same arguments and length. |
| Resp.ParseExtend | src/protocol/resp_codec.cpp:56-93 | Bytes that arrive later never change a command that was already recognised. |
| Resp.FramePrefix | src/protocol/resp_codec.cpp:56-93 | For every command of length L and every n below L, the first n bytes parse if and only if n has reached the acceptance length (L - 2 with arguments, L without), and then give the whole command's arguments and consumed = L. |
| Resp.FrameThenMore | src/protocol/resp_codec.cpp:56-93 | A command followed by anything parses to that command and nothing more. |
| Resp.AppendDigit | src/protocol/resp_codec.cpp:12-20 | The division loop appends exactly the decimal digits of the number. |
| Resp.EncodeBulkInto | src/protocol/resp_codec.cpp:353-366 | Appends one bulk string: `$`, decimal length, CRLF, payload, CRLF. |
| Resp.EncodeArrayInto | src/protocol/resp_codec.cpp:394-418 | Both reply-buffer array printers append exactly the encoding of the array to what the buffer held. |
| Resp.EncodeRespCommand | src/aof/aof_manager.cpp:150-159 | The log's printer, and with it `encode_array`, builds the same bytes as the reply-buffer printers. |
| Resp.RoundTrip | src/protocol/resp_codec.cpp:34-131 | For all argument lists and all suffixes, parsing the encoding followed by the suffix returns the arguments and the encoded length if and only if the count and every length are below 2^31. Payloads are arbitrary bytes. |
| Resp.EncodedIsFrame | src/protocol/resp_codec.cpp:169-188 | Every bounded argument list is printed as exactly one command, whose arguments are the list. |
| Resp.WireExample | src/protocol/resp_codec.cpp:169-188 | The bytes of GET k on the wire, letter by letter. |
| Decimal.ReadableIntegers | src/util/parse.hpp:10-19 | A text is a 64-bit integer exactly when it is digits, with or without a minus before them, whose value fits; nothing else parses. |
| Replica.ReplicaConnector.ProcessBuffer | src/replica/replica_connector.cpp:221-241 | The erase loop turns buffer, offset, forwarded commands and acknowledgements into those of the specification drain; what the acknowledgements say to their reader is `Replica.AckSays`. |
| Replica.ReplicaConnector.ProcessPropagated | src/replica/replica_connector.cpp:243-256 | A delivery appends to the pending buffer and drains it. |
| Replica.DeliverInSync | src/replica/replica_connector.cpp:221-241 | One more safe delivery, wherever it cuts, keeps the connector exactly in step with the stream. |
| Replica.GetAckIs | src/replica/replica_connector.cpp:231-237 | A command is answered exactly when it has two words at least and they spell REPLCONF and GETACK, in any case. |
| Replica.AckSays | src/replica/replica_connector.cpp:231-237 | For every offset below 2^63 and every suffix, reading the acknowledgement gives REPLCONF, ACK and a text that parses to the offset, and consumes exactly the acknowledgement. |
| Replica.AnswersRead | src/replica/replica_connector.cpp:231-237 | The acknowledgements of a drained stream read back as the offsets at which its GETACK commands stood. |
| Replica.ChunkingIrrelevant | src/replica/replica_connector.cpp:221-241 | For every split of a command stream whose deliveries do not end inside a command's last two bytes: the connector has forwarded exactly the complete non-GETACK commands in order, the acknowledgements it has written read back, as REPLCONF ACK commands, as the number of bytes before each complete GETACK, and consumed plus pending bytes are the delivered bytes. |
| Replica.Stuck | src/replica/replica_connector.cpp:223-227 | Once the buffer does not begin with `*`, no later delivery is ever recognised; bytes only pile up. |
| Replica.UnsafeCut | src/replica/replica_connector.cpp:221-241 | A delivery that ends inside a command's last two bytes leaves the connector stuck with everything that follows. |
| Replica.SyncIffSafe | src/replica/replica_connector.cpp:221-241 | A completely delivered stream of printed commands leaves an empty buffer if and only if no delivery ended inside a command's last two bytes. |
| StreamIds.IdRoundTrip | src/store/stream_id.hpp:15-38 | The text of a representable id parses back to it if and only if the timestamp is not negative. |
| SortedSets.AddRefines | src/store/store.hpp:33-45 | `add` keeps the ordered set and the member index holding the same nodes, and its meaning is an update of the member-to-score map. |
| SortedSets.RemoveRefines | src/store/store.hpp:47-56 | `remove` keeps the two containers in step, and its meaning is a removal from the map. |
| SortedSets.Cardinality | src/store/store.cpp:583-586 | Ordered set, member index and map have the same size in every valid sorted set. |
| SortedSets.RankCounts | src/store/store.cpp:530-542 | A member's position is the number of members with a smaller score, or with its score and a name that is a proper prefix of its own or smaller at the first differing byte; the node there is the member's. |
| SortedSets.BytesLessIs | src/store/store.hpp:28-32 | Names are compared as byte strings: the first differing byte decides, and a proper prefix comes first. |
| SortedSets.ByScoreThenName | src/store/store.hpp:28-32 | Along the ordered set scores do not decrease, and among equal scores each name comes before the next in byte order. |
| SortedSets.RangeByRank | src/store/store.cpp:544-581 | The member at a position of the ordered set is the one with that many members of the map before it. |
| SortedSets.RangeAtRank | src/store/store.cpp:544-581 | The range from a member's rank to itself is exactly that member. |
| SortedSets.RunRefines | src/store/store.hpp:28-57 | After any run of adds, score updates and removes the ordered set and the index hold the same nodes, one per member, and mean the map the same run gives. |
| SortedSets.Canonical | src/store/store.hpp:28-57 | Two valid sorted sets with the same map are equal: the representation is determined by its meaning. |
| SortedSets.SortedSet.AddMember | src/store/store.hpp:33-45 | The two containers edited in place end as `Add` says; returns 1 exactly for a new member. |
| SortedSets.SortedSet.RemoveMember | src/store/store.hpp:47-56 | The two containers edited in place end as `Remove` says; returns 1 exactly for an existing member. |
| Keyspace.ChosenIdParses | src/store/store.cpp:407-457 | For all three id forms the text that will be stored parses to the id that will be cached, wherever the 64-bit sequence wraps. |
| Keyspace.XaddKeepsOrder | src/store/store.cpp:402-472 | Every XADD keeps the ids of a stream strictly increasing, every text parsing to its cached id, none 0-0, every entry with fields. |
| Keyspace.AddedIsNoError | src/store/store.cpp:197-208 | The id an accepted XADD returns never begins like an error, so its callers' test on the text is exact. |
| Keyspace.LaterOk | src/store/store.cpp:14-16 | The keyspace invariant holds at every later clock reading. |
| Stores.LowerBound | src/store/store.cpp:30-42 | Bisection finds the first position whose id is not below the target. |
| Stores.UpperBound | src/store/store.cpp:44-56 | Bisection finds the first position whose id is above the target. |
| Stores.BetweenIsSlice | src/store/store.cpp:474-495 | The slice between the two bounds is the linear filter of the stream by them, in order. |
| Stores.AfterIsSlice | src/store/store.cpp:497-513 | The slice from the upper bound on is the linear filter of newer entries. |
| Stores.SliceItems | src/store/store.cpp:343-380 | The clamping branches and copy loop of LRANGE and ZRANGE return exactly the slice with both ends included after resolving negative positions. |
| Stores.TakeItems | src/store/store.cpp:286-341 | The pop loops return the first elements in order, or the last ones from the end, and leave the others in order. |
| Stores.SettleId | src/store/store.cpp:407-457 | The branches for `*`, `ms-*` and explicit ids settle on a text that always parses to the id they settle on, or refuse; which id, `Laws.GeneratedIdAccepted` says for `*`. |
| Stores.ScanKeys | src/store/store.cpp:624-636 | The erasing scan, in any order, leaves exactly the live entries and lists each of their keys once. |
| Stores.Store.TouchKey | src/store/store.hpp:74-81 | The counter goes up by one and becomes the key's version; nothing else changes. |
| Stores.Store.FindValidEntry | src/store/store.cpp:18-28 | Returns the live entry; the only change is that a dead entry of that key is erased. |
| Stores.Store.Set | src/store/store.cpp:58-66 | Overwrites the entry, whatever it held, with text and time to live, and touches the key. |
| Stores.Store.SetIfValidType | src/store/store.cpp:68-92 | Refuses live entries of another type, with versions and counter as they were (`Invariants.WrongTypeTouchesNothing`); otherwise sets text and expiry as a function of the live entry alone. |
| Stores.Store.IncrIfValidType | src/store/store.cpp:94-117 | Increments 64-bit text; touches the key even where the text is no integer or the maximum, and creates "1" for absent or dead. |
| Stores.Store.PushIfValidType | src/store/store.cpp:119-171 | Appends or prepends to a live list, creates one for absent or dead, refuses other types without touching the key. |
| Stores.Store.PushAny | src/store/store.cpp:256-268 | Push that resets an entry of another type and keeps its expiry. |
| Stores.Store.PopCount | src/store/store.cpp:275-341 | Takes up to `count` elements from the chosen end; the emptied list stays; the key is touched in every case. |
| Stores.Store.Lrange | src/store/store.cpp:343-380 | The resolved slice of the live list. |
| Stores.Store.ZaddIfValidType | src/store/store.cpp:173-195 | Adds to a live sorted set, creates one for absent or dead, refuses other types untouched. |
| Stores.Store.ZaddAny | src/store/store.cpp:524-528 | Adds to the sorted set, resetting an entry of another type. |
| Stores.Store.ZremMember | src/store/store.cpp:602-609 | Removes the member and says whether it was there; an emptied set stays. |
| Stores.Store.Zrank | src/store/store.cpp:530-542 | The walk from the beginning to the member's node counts the members of the map with a smaller score, or the same score and a smaller name; none exactly for a member that is not in the map. |
| Stores.Store.Zrange | src/store/store.cpp:544-581 | The members at the resolved positions; each listed member stands at the position that its rank in the map says. |
| Stores.Store.Zscore | src/store/store.cpp:588-600 | Lookup in the member-to-score map of the live entry. |
| Stores.Store.Zcard | src/store/store.cpp:583-586 | Size of the member-to-score map of the live entry. |
| Stores.Store.XaddAny | src/store/store.cpp:402-472 | Settles the id, checks it and appends; a refused entry leaves the created or reset stream behind. |
| Stores.Store.XaddIfValidType | src/store/store.cpp:197-208 | Refuses live entries of another type untouched, otherwise as `xadd`. |
| Stores.Store.Xrange | src/store/store.cpp:474-495 | Two bisections return exactly the linear filter of the live stream by the resolved bounds, which `StreamLaws.XrangeMeans` reads in milliseconds and sequences. |
| Stores.Store.Xread | src/store/store.cpp:497-513 | One bisection returns exactly the entries newer than the resolved threshold. |
| Stores.Store.GetStreamMaxId | src/store/store.cpp:515-522 | The text of the newest id of the live stream, if any. |
| Stores.Store.KeyIsAbsentOrHolds | src/store/store.hpp:176-186 | Away from the instant at which the key's entry expires, true exactly when the live entry is absent or of that kind; at that instant the dead entry's type still counts. Erases nothing. |
| Stores.Store.GetKeyVersion | src/store/store.hpp:188-191 | The version read never exceeds the counter, and the next touch of the key gives a larger one, so an unchanged version means an untouched key. |
| Stores.Store.Keys | src/store/store.cpp:624-636 | Leaves exactly the live entries and lists each key once. |
| Blocking.BlockOk | src/blocking_manager/blocking_manager.cpp:9-20 | Blocking keeps the invariant: no empty queue, arrival order, every index entry points to a live queue node with that descriptor and key. |
| Blocking.BlockBijective | src/blocking_manager/blocking_manager.cpp:9-20 | Queues and index stay in bijection if and only if the descriptor was not already waiting. |
| Blocking.WaitsUntil | src/blocking_manager/blocking_manager.cpp:9-92 | The node a block adds is in its queue, and still there after a sweep at time t if and only if the timeout is 0 or t is before now plus the timeout. |
| Blocking.WakeOk | src/blocking_manager/blocking_manager.cpp:22-66 | Both wake operations keep the invariant and the bijection. |
| Blocking.WakeIsFifo | src/blocking_manager/blocking_manager.cpp:22-37 | Whoever is woken arrived before everyone who stays in that queue. |
| Blocking.WakeBehindIsFifo | src/blocking_manager/blocking_manager.cpp:39-66 | Whoever is woken is behind the new id and arrived before everyone who stays and is behind it. |
| Blocking.UnblockOk | src/blocking_manager/blocking_manager.cpp:94-110 | Removing a client keeps the invariant and the bijection. |
| Blocking.ExpireMembers | src/blocking_manager/blocking_manager.cpp:68-92 | Exactly the overdue waiters leave their queues; every remaining finite deadline lies after now. |
| Blocking.ExpireOk | src/blocking_manager/blocking_manager.cpp:68-92 | The sweep keeps the invariant. |
| Blocking.ExpireBijective | src/blocking_manager/blocking_manager.cpp:68-92 | The sweep keeps the bijection. |
| Blocking.IndexAgrees | src/blocking_manager/blocking_manager.cpp:5-110 | In every run of blocks, wakes, unblocks and sweeps every index entry points to a live queue node with that descriptor and key; if no client ever blocked while waiting, queues and index are in bijection. |
| Blocking.FindBehind | src/blocking_manager/blocking_manager.cpp:51-63 | The scan stops at the first waiter whose id is below the new one. |
| Blocking.SweepQueue | src/blocking_manager/blocking_manager.cpp:73-83 | Erasing while iterating leaves the patient waiters in order and returns the overdue descriptors in order. |
| Blocking.SweepAll | src/blocking_manager/blocking_manager.cpp:68-92 | The sweep over all queues, in any order, leaves exactly the patient waiters and no empty queue. |
| Blocking.BlockingManager.BlockClientForStream | src/blocking_manager/blocking_manager.cpp:9-20 | Appends a node to the key's queue and points the index at it; deadline only for a non-zero timeout, kept until exactly then (`Blocking.WaitsUntil`). |
| Blocking.BlockingManager.WakeClient | src/blocking_manager/blocking_manager.cpp:22-37 | The front of the queue leaves queue and index; an empty queue is erased. |
| Blocking.BlockingManager.WakeClientForStream | src/blocking_manager/blocking_manager.cpp:39-66 | The first waiter behind the id leaves; nothing happens for an id that does not parse. |
| Blocking.BlockingManager.GetExpiredClients | src/blocking_manager/blocking_manager.cpp:68-92 | All overdue waiters leave, returned descriptors are the queues' overdue ones in some queue order, and every remaining finite deadline lies after now. |
| Blocking.BlockingManager.UnblockClient | src/blocking_manager/blocking_manager.cpp:94-110 | The node the index knows leaves its queue; the queue goes when empty. |
| Blocking.BlockingManager.GetNextDeadline | src/blocking_manager/blocking_manager.cpp:112-124 | A deadline of some waiter that no other finite deadline precedes, none exactly when nobody has one; after a sweep it lies after the sweep's time. |
| Blocking.BlockingManager.IsBlocked | src/blocking_manager/blocking_manager.cpp:126-128 | With queues and index in bijection, true exactly when some queue holds a node of that descriptor. |
| Invariants.ExecOk | src/store/store.cpp:58-609 | Every command keeps the keyspace invariant: only strings expire, streams strictly increase with exact texts, sorted sets keep both containers in step, versions stay below the counter. |
| Invariants.ExecFrame | src/store/store.hpp:74-81 | Every command gives new versions to exactly the keys a table names from its word, its arguments and the live entry, leaves every other key's version and live entry unchanged, and leaves all versions and the counter alone when the table names none. |
| Invariants.ActTouches | src/store/store.cpp:58-609 | A command on one key calls `touch_key` for it exactly when the table says so. |
| Invariants.WrongTypeTouchesNothing | src/store/store.cpp:68-208 | A command answered with WRONGTYPE leaves every version and the version counter as they were. |
| Expiry.ExecAlike | src/store/store.cpp:14-28 | Two stores that agree on live entries give every command the same reply and messages and agree afterwards, also at different clocks when nothing expires and the command reads no clock. |
| ExpiryRuns.StepAlike | src/handler/command_handler.cpp:523-692 | One client command of any kind, EXEC with its version check included, gives equal replies, messages and transactions on servers that agree, and they agree again. |
| ExpiryRuns.LazyExpiryInvisible | src/store/store.cpp:14-28 | Over every sequence of client commands (MULTI, EXEC, WATCH, unknown names and wrong arities included), disconnects and timeouts under a clock that does not run backwards, two servers that agree on live entries, versions, waiters and transactions give the same replies and messages and agree at the end; GEOADD at the exact tick is excluded. |
| Expiry.GeoaddSeesTheTick | src/store/store.hpp:176-186 | A GEOADD is refused because of a dead entry if and only if it meets it at the very instant of expiry and the entry is no sorted set. |
| ExpiryRuns.GeoaddTickExample | src/store/store.hpp:182-182 | A run from the empty server: after SET with PX 10 a GEOADD of that key is refused exactly 10 ms later and accepted at 11 ms. |
| Sessions.StepFrame | src/handler/command_handler.cpp:523-692 | One client command, transactions included, gives new versions to exactly the keys the table of touching commands names, leaves all other keys alone, and keeps the keyspace invariant. |
| Sessions.OptimisticLocking | src/handler/command_handler.cpp:605-675 | Over every interleaving of clients, disconnects and timeouts: EXEC aborts if and only if some watched key was touched, by the table of commands, arguments and live entries, after its latest WATCH; when it commits, every watched key reads exactly as the keyspace of its WATCH would read now. |
| SessionLaws.TransactionIsHistory | src/handler/command_handler.cpp:588-692 | In every run a client is inside a transaction exactly when it has said MULTI and neither EXEC, DISCARD nor a disconnect came since, and its queue holds exactly what it has said since the first such MULTI, in order, transaction words apart. |
| SessionLaws.WordsAreAnswered | src/handler/command_handler.cpp:588-692 | In every run MULTI is accepted exactly outside a transaction, DISCARD exactly inside, WATCH exactly outside and with a key, UNWATCH always; anything else inside is answered QUEUED; EXEC outside is an error; what is refused or put off changes neither keyspace nor wait queues. |
| SessionLaws.CommitRunsHistory | src/handler/command_handler.cpp:605-648 | An EXEC that commits runs exactly what the client said since MULTI, in that order, and answers with those replies; one that aborts runs nothing. |
| Wakeups.ServeReadersDoes | src/handler/stream_commands.cpp:209-215 | The wake loop serves exactly the waiters behind the new id, in arrival order, each with the entries after its id, and leaves the others in order. |
| Wakeups.NoLostWakeup | src/handler/list_commands.cpp:110-216 | In every reachable state no BLPOP waits on a key whose list has an element, and no XREAD recorded with the id it was checked against waits on a stream with a newer entry; the wait-queue and keyspace invariants hold. |
| Wakeups.WokenReaders | src/handler/stream_commands.cpp:179-219 | An accepted XADD messages exactly the waiters behind the new entry in arrival order; every XREAD among them recorded with the id it was checked against gets exactly the new entry; nobody left on the key is behind it. |
| Wakeups.ReaderIsExact | src/handler/stream_commands.cpp:160-172 | A blocking XREAD is recorded with the id it was checked against if and only if its id is `$`, parses as `ms-seq`, or has no dash and is 0 or no integer. |
| Wakeups.WaitsOnlyWhenQuiet | src/handler/stream_commands.cpp:137-172 | For every stream on which it would wait, nothing newer than the recorded id is there, if and only if the id is one of those: for every other id some stream has a waiter that was passed over. |
| Wakeups.BareIdExample | src/handler/stream_commands.cpp:170-170 | The input of the failing family, in a run from the empty server: after XADD k 3-1 f v, XREAD BLOCK with the bare id `5` is recorded as 0-0 and waits on a stream that holds an entry newer than that. |
| Wakeups.PushHandsOver | src/handler/list_commands.cpp:144-216 | Old elements plus given values equal new elements plus delivered ones, as multisets, if and only if the push has one value or at most one client waits. |
| Wakeups.PushFeedsFront | src/handler/list_commands.cpp:144-216 | When one value is pushed while somebody waits, the front waiter is sent the key and the head of the list as it is after the push, the rest of the list stays, that waiter alone leaves, and the answer is the length before the hand-over. |
| CommandLoop.Pipelining | src/handler/command_handler.cpp:458-521 | A concatenation of commands gives the same server, replies, messages, log and consumed length as sending them one at a time, up to and including the first that waits. |
| CommandLoop.LogIsWrites | src/handler/command_handler.cpp:492-500 | The log of a batch is exactly the raw bytes of the write-named commands it ran, in order; the batch consumed exactly the commands it ran, all of them unless one waits. |
| CommandLoop.ProcessAppend | src/handler/command_handler.cpp:448-456 | Processing whole commands followed by more is processing the commands and then the rest. |
| QueuedNames.QueuedName | src/handler/command_handler.cpp:631-642 | A queued command of the table is answered as unknown, and does nothing, if and only if its name was not typed in upper case. |
| QueuedNames.QueueIsImmediate | src/handler/command_handler.cpp:627-646 | A queue of table commands runs as the same commands do outside a transaction, apart from those that would wait, if and only if every name was typed in upper case. |
| QueuedNames.LowerCaseExample | src/handler/command_handler.cpp:634-637 | The input `get k`: a null answer outside a transaction, an unknown command inside one. |
| Laws.SetThenRead | src/store/store.cpp:68-92 | A value that was set is found at a later time if and only if that time is before its deadline, with its text. |
| Laws.IncrementsCount | src/store/store.cpp:94-117 | The n-th INCR of an absent key answers n and stores its text up to the largest 64-bit integer; from then on INCR is refused and the value stays. |
| Laws.PopSplits | src/store/store.cpp:286-341 | Popped elements put back in the opposite order give the list as it was; as many as asked for, or all, are taken. |
| Laws.PushThenPop | src/store/store.cpp:256-341 | Popping one element undoes a push at the same end. |
| Laws.PushAll | src/handler/list_commands.cpp:13-41 | With nobody waiting, RPUSH appends its values in order and LPUSH prepends them one after the other; the answer is the new length; the key is touched once per value. |
| Laws.GeneratedIdAccepted | src/store/store.cpp:414-471 | XADD with id `*` is accepted if and only if the wall clock is ahead of the newest entry, or level with it and the sequence can go up without reaching 0-0; on an empty stream, away from the epoch. |
| Laws.RangeExact | src/store/store.cpp:343-380 | A range selects exactly the positions between those its bounds name, except, and only except, when the list has elements, `start` names no position behind the first and `stop` names one before it. |
| StreamLaws.XrangeMeans | src/store/store.cpp:474-495 | XRANGE returns, in order, exactly the live stream's entries at or after `start` and at or before `end`: `-` and `+` are open ends, a full id bounds by time and then sequence, a bare start time begins at its sequence 0, a bare end time takes in all its sequences, and what does not parse bounds as the code has it. |
| StreamLaws.BareTimes | src/store/store.cpp:474-495 | Two bare times select exactly the entries with a time between them, both included. |
| StreamLaws.XreadMeans | src/handler/stream_commands.cpp:110-157 | A plain XREAD answers for every key, in order, with exactly the live stream's entries after the given id, where a bare time stands for its sequence 0 and `$` for the newest. |
| StreamLaws.SettledId | src/store/store.cpp:407-471 | An explicit id is taken as it is, and accepted exactly when it parses, is not 0-0 and lies above the newest; a generated one has the asked time and the least sequence that may be added there. |
| StreamLaws.TimedIdAccepted | src/store/store.cpp:427-440 | An id `ms-*` is accepted if and only if its time parses and is ahead of the newest entry, or level with it and the sequence can go up without reaching 0-0. |
| StreamLaws.XaddMeans | src/handler/stream_commands.cpp:179-219 | XADD answers with an id exactly when the key can hold a stream and the id is accepted; then the live stream has one entry more, last, with that text, its parsed id and the given field and value pairs in order. |
| ClientLaws.CommandTable | src/handler/command_handler.cpp:58-446 | A name is in the table exactly when it is one of the 23, and then it runs the command of that name. |
| ClientLaws.Arities | src/handler/command_handler.cpp:58-446 | The least number of words of each command. |
| ClientLaws.BadCallsDoNothing | src/handler/command_handler.cpp:694-710 | A name that is not in the table, or with too few words, is answered with an error and changes nothing. |
| ClientLaws.LoggedNames | src/handler/command_handler.cpp:27-41 | The logged names are DEL and, of the table, exactly SET, MSET, INCR, the pushes, XADD, ZADD, GEOADD, the two plain pops and ZREM. |
| ClientLaws.TransactionWords | src/handler/command_handler.cpp:588-675 | Exactly MULTI, EXEC, DISCARD, WATCH and UNWATCH are taken by the transaction machine, each for its own step. |
| ClientLaws.OptionsGrow | src/handler/string_commands.cpp:12-40 | One more word of SET changes nothing unless it spells EX or PX; then it needs a number, which sets the time to live, in thousands of milliseconds or milliseconds modulo 2^64, over any before it. |
| ClientLaws.SetMeans | src/handler/string_commands.cpp:12-49 | SET is accepted exactly when its options are well-formed and the live value is absent or a string; then GET answers the value until the time to live is over, and nothing from then on. |
| ClientLaws.GetMeans | src/handler/string_commands.cpp:42-49 | GET answers the live string, and nil for anything else. |
| ClientLaws.IncrMeans | src/handler/string_commands.cpp:51-58 | INCR answers one more than the number at the key, nothing counting as 0, and that is what the text there then parses to; without a number below 2^63 - 1 it answers an error and leaves the value. |
| ClientLaws.IncrKeepsExpiry | src/store/store.cpp:94-117 | After an INCR the key reads something at a later time exactly when it would have without the INCR, or when the INCR created it. |
| ClientLaws.MsetMeans | src/handler/string_commands.cpp:60-76 | An accepted MSET gives every named key the last value named for it, for good, and leaves what every other key reads at any time; a refused one changes nothing. |
| ClientLaws.PopOne | src/handler/list_commands.cpp:43-94 | LPOP answers the first element and RPOP the last, which leaves the list. |
| ClientLaws.PopMany | src/handler/list_commands.cpp:43-94 | With a count, LPOP answers that many elements from the front and RPOP from the back, in the order they are taken; the rest stays in order. |
| ClientLaws.PushMeans | src/handler/list_commands.cpp:144-216 | With nobody waiting, RPUSH puts its words behind the list in order and LPUSH in front of it, the last first; the answer is the new length and nobody is sent anything. |
| ClientLaws.LlenMeans | src/store/store.cpp:270-273 | LLEN answers the number of elements of the live list. |
| ClientLaws.LrangeMeans | src/store/store.cpp:343-380 | LRANGE answers the elements between the positions its bounds name, negative ones counted from the end. |
| ClientLaws.BlpopTakes | src/handler/list_commands.cpp:110-142 | BLPOP with something to pop answers the key and the first element, which leaves the list; nobody is queued. |
| ClientLaws.BlpopWaits | src/handler/list_commands.cpp:110-142 | BLPOP with nothing to pop waits, and a sweep at time t lets it go if and only if its timeout is not 0 and over by then. |
| ClientLaws.XreadWaits | src/handler/stream_commands.cpp:160-172 | A blocking XREAD that waits does so on its key, and a sweep at time t lets it go if and only if its timeout is not 0 and over by then. |
| ClientLaws.BlockArgs | src/handler/stream_commands.cpp:91-135 | XREAD BLOCK reads its timeout as milliseconds, then one key and one id. |
| ClientLaws.ZaddMeans | src/handler/zset_commands.cpp:11-34 | ZADD with complete pairs of good scores puts them into the member-to-score map in order and answers by how much the map grew. |
| ClientLaws.ZremMeans | src/handler/zset_commands.cpp:73-76 | ZREM takes the member out of the map and answers 1 exactly when it was there. |
| ClientLaws.GeoaddMeans | src/handler/geo_commands.cpp:18-44 | GEOADD, which names longitude first, gives the member the score of latitude and longitude and answers 1 exactly when it is new; a pair out of range changes nothing. |
| ClientLaws.ZscoreMeans | src/handler/zset_commands.cpp:61-71 | ZSCORE answers the text of the member's score in the map. |
| ClientLaws.ZrankMeans | src/handler/zset_commands.cpp:36-43 | ZRANK answers the number of members with a smaller score, or the same score and a smaller name. |
| ClientLaws.ZcardMeans | src/handler/zset_commands.cpp:57-59 | ZCARD answers the size of the map. |
| ClientLaws.ZrangeMeans | src/handler/zset_commands.cpp:45-55 | ZRANGE lists, from the position `start` names to the one `stop` names, each member at the position its rank says. |
| ClientLaws.KeysMeans | src/store/store.cpp:624-636 | KEYS answers exactly the keys with a live value. |
| ClientLaws.TypeMeans | src/store/store.cpp:382-400 | TYPE names the kind of the live value, and none where there is none. |
| Handlers.SetOptions | src/handler/string_commands.cpp:12-40 | The option loop of SET yields the last EX or PX, in milliseconds modulo 2^64, or the first error. |
| Handlers.ParseReadArgs | src/handler/stream_commands.cpp:91-135 | The argument checks of XREAD, in order: BLOCK timeout, STREAMS, an even rest, one stream when blocking; then keys and ids. |
| Handlers.CommandHandler.HandleSet | src/handler/string_commands.cpp:12-40 | Store and reply after SET are those of the value-level command. |
| Handlers.CommandHandler.HandleIncr | src/handler/string_commands.cpp:51-58 | Store and reply after INCR are those of the value-level command. |
| Handlers.CommandHandler.HandleMset | src/handler/string_commands.cpp:60-76 | All keys are checked before any is set: an MSET is refused as a whole with the store unchanged, or sets every pair in order. |
| Handlers.CommandHandler.HandlePop | src/handler/list_commands.cpp:43-94 | LPOP and RPOP with and without a count. |
| Handlers.CommandHandler.HandleBlpop | src/handler/list_commands.cpp:110-142 | Pops at once if there is an element, otherwise the caller waits with its timeout, or is refused during replay. |
| Handlers.CommandHandler.WakeOne | src/handler/list_commands.cpp:157-168 | The front waiter leaves and is sent the head of the list, if there is one. |
| Handlers.CommandHandler.HandlePush | src/handler/list_commands.cpp:144-216 | Store, wait queues, messages and reply of a push over its loop of values, with and without waiters. |
| Handlers.CommandHandler.HandleZadd | src/handler/zset_commands.cpp:11-34 | The pair loop adds in order, counts new members, and stops at the first score that does not parse with the earlier pairs kept. |
| Handlers.CommandHandler.HandleZrem | src/handler/zset_commands.cpp:73-76 | Store and reply after ZREM. |
| Handlers.CommandHandler.HandleGeoadd | src/handler/geo_commands.cpp:18-44 | Type check, number and range checks in the code's order, then the add. |
| Handlers.CommandHandler.HandleXadd | src/handler/stream_commands.cpp:179-219 | Store, wait queues, messages and reply of an XADD with its wake loop. |
| Handlers.CommandHandler.ServeLoop | src/handler/stream_commands.cpp:209-215 | The wake loop terminates, leaves the store as it is, and serves what the specification loop serves. |
| Handlers.CommandHandler.HandleXread | src/handler/stream_commands.cpp:89-177 | Reads all streams, or waits on the first when blocking and nothing is there. |
| Handlers.CommandHandler.ReadLoop | src/handler/stream_commands.cpp:137-152 | The loop over the streams reads each against the keyspace before the command and only drops dead entries. |
| Handlers.CommandHandler.HandleRead | src/handler/command_handler.cpp:96-306 | GET, LLEN, LRANGE, TYPE, ZRANK, ZRANGE, ZCARD, ZSCORE and XRANGE answer from the live entry and change nothing but dead entries. |
| Handlers.CommandHandler.HandleKeys | src/handler/command_handler.cpp:191-199 | KEYS answers with exactly the live keys and leaves exactly the live entries. |
| Handlers.CommandHandler.Handle | src/handler/command_handler.cpp:58-446 | Every modelled command of the table runs a handler that computes the value-level command on the shared store and wait queues. |
| Dispatch.Dispatcher.Execute | src/handler/command_handler.cpp:694-710 | Lookup of the name as given among the modelled commands, arity check, handler; the keyspace invariant is kept. |
| Dispatch.Dispatcher.RunQueue | src/handler/command_handler.cpp:627-646 | The EXEC loop runs the queued commands in order, names not upper-cased, and turns a command that would wait into an error reply. |
| Dispatch.Dispatcher.AnyChanged | src/handler/command_handler.cpp:613-619 | The early-exit scan over watched keys, in any order, finds a changed version if and only if there is one. |
| Dispatch.Dispatcher.Snapshot | src/handler/command_handler.cpp:669-672 | WATCH records the current version of every named key and keeps the other watched keys. |
| Dispatch.Dispatcher.RunExec | src/handler/command_handler.cpp:605-648 | EXEC without MULTI, aborted, or run; the transaction is cleared in the last two cases. |
| Dispatch.Dispatcher.ProcessSingle | src/handler/command_handler.cpp:562-692 | The transaction state machine of one connection over the shared store, behind the subscription and authentication gates. |
| Dispatch.Dispatcher.RunOne | src/handler/command_handler.cpp:480-500 | One turn of the batch loop: run the command, then log its raw bytes if its name is a write. |
| Dispatch.Dispatcher.ProcessWithFd | src/handler/command_handler.cpp:458-521 | The batch loop computes the specified server, replies, messages, log, consumed length and waiting flag, and the append-only file and rewrite buffer grow by exactly the logged bytes. |
| Snapshot.CollectFields | src/aof/aof_manager.cpp:195-200 | One stream entry becomes an XADD with its id text and fields. |
| Snapshot.WriteEntry | src/aof/aof_manager.cpp:171-229 | The callback writes exactly the encoded commands of one live entry. |
| Snapshot.RewriteChild | src/aof/aof_manager.cpp:161-233 | The child's file is the concatenated encoding of the commands of all live entries in the table's order. |
| Snapshot.ProcessEncoded | src/handler/command_handler.cpp:448-456 | Processing printed commands is replaying the commands, one per command, and consumes the whole file. |
| Rebuild.SnapshotMeaning | src/aof/aof_manager.cpp:161-233 | For every keyspace with the invariant, every key order and the same clock reading, processing the child's file from an empty server rebuilds exactly the live entries without the empty collections. |
| Rebuild.KeptIsLive | src/aof/aof_manager.cpp:186-212 | What is rebuilt equals the live entries if and only if no live collection is empty. |
| Rebuild.FromNodesPrefix | src/aof/aof_manager.cpp:208-219 | Adding the nodes of a sorted set in order rebuilds it, node for node. |
| Aof.AofManager.Log | src/aof/aof_manager.cpp:121-148 | The open file grows by the bytes, and the rewrite buffer too while a rewrite runs. |
| Aof.AofManager.StartRewrite | src/aof/aof_manager.cpp:235-263 | Refused while a rewrite runs, without append-only mode or when the fork fails, with nothing changed; otherwise the buffer is emptied and the child's output is the snapshot of that moment. |
| Aof.AofManager.CheckRewriteComplete | src/aof/aof_manager.cpp:265-322 | On success the new file is snapshot plus buffered tail, and manifest, open file and sequence move to it together; on failure only the rewrite state is reset. |
| Aof.AofManager.ReadAofContent | src/aof/aof_manager.cpp:78-96 | What a restart reads: nothing without append-only mode, otherwise the file the manifest names, and processing it from an empty server gives the live data whenever the file keeps its promise. |
| Aof.StepAgrees | src/handler/command_handler.cpp:448-456 | A durable command run for a client and during replay, on equal data at any two times, ends with equal data. |
| Aof.UnloggedKeepsData | src/handler/command_handler.cpp:27-41 | A durable command that is not logged leaves the data as it is. |
| Aof.LoggedRecovers | src/handler/command_handler.cpp:492-500 | If a file restores the data before a durable command, the file with the command appended restores the data after it. |
| Transactions.BatchSafe | src/handler/command_handler.cpp:458-521 | A batch of durable commands keeps: the open file restores the live data, and during a rewrite so do the child's output and the buffered tail together. |
| Aof.ForkRestores | src/aof/aof_manager.cpp:161-233 | Without expiries, the child's file restores the data it was forked from if and only if no collection is empty. |
| Recovery.Recoverability | src/aof/aof_manager.cpp:121-322 | In every state of every run of batches of whole durable commands, transactions of them (EXEC with what can write typed as it is run, DISCARD with nothing that can write), rewrite requests, and rewrite children that succeed or fail, processing the manifest-named file from an empty server, at any times, restores exactly the live data. |
| Transactions.TransactionRecovers | src/handler/command_handler.cpp:492-500 | After MULTI, durable commands and EXEC or DISCARD, with or without watched keys, the file restores the live data if and only if, in the state before, the data the transaction is going to leave (the queued run's if it commits, the old ones otherwise) are those the queued commands would leave outside it. |
| Transactions.TransactionSafe | src/handler/command_handler.cpp:605-658 | A transaction of durable commands keeps the file's promise, also during a rewrite, when it commits with what can write typed as it is run, or is discarded with nothing that can write. |
| Discards.AlwaysDiscardable | src/handler/command_handler.cpp:492-500 | In every state that keeps the promise the queued commands would leave the data as they are, so that the transaction can be discarded or aborted, if and only if none of them can write, which their arguments alone decide. |
| Discards.AlwaysCommittable | src/handler/command_handler.cpp:631-642 | A single queued command can be committed in every state that keeps the promise if and only if it is typed as it is run or cannot write. |
| WriteEffects.NoWriteKeeps | src/handler/command_handler.cpp:58-446 | A durable command whose arguments fail its handler's checks leaves the data as they are. |
| WriteEffects.KeysStay | src/store/store.cpp:58-609 | A durable command never empties a keyspace that holds something, and one that passes its checks and can create leaves something behind. |
| WriteEffects.ShrinkStep | src/store/store.cpp:275-609 | A durable command that cannot create leaves every entry as it is or smaller, and a pop or ZREM that finds something leaves it smaller. |
| Recovery.DiscardExample | src/handler/command_handler.cpp:492-500 | MULTI, SET k v, DISCARD from the empty server leaves no data and a file that restores the value. |
| Recovery.InterleavedExample | src/handler/command_handler.cpp:492-500 | While client 1 has SET k a queued, client 2 sets k to b: after EXEC the server holds a, and the file restores b. |
| Recovery.ShortWriteIsLogged | src/handler/command_handler.cpp:480-500 | A write of which all but one or two last bytes have arrived is run, and logged cut where the delivery ended. |
| Recovery.LaterWritesSurvive | src/handler/command_handler.cpp:478-500 | Behind a logged write that was accepted early, a later command in the file is replayed if and only if the write was logged whole; otherwise the file's meaning ends with it. |
| RecoveryLimits.BlpopRecovers | src/handler/command_handler.cpp:27-41 | After an accepted BLPOP the file restores the data if and only if there was nothing to pop. |
| RecoveryLimits.PushRecovers | src/handler/list_commands.cpp:157-176 | After a push the file with the push restores the data if and only if nobody waited on the key, or the push was refused. |
| RecoveryLimits.TtlRecovers | src/handler/string_commands.cpp:12-40 | After a SET with a time to live the replayed file gives the live data if and only if the command is replayed at the clock reading it was first run at. |
| RecoveryLimits.GeneratedIdRecovers | src/store/store.cpp:414-425 | After an accepted XADD with id `*` the replayed file gives the live data if and only if the command is replayed at the wall clock it was first run at. |
| RecoveryLimits.XreadRecovers | src/handler/stream_commands.cpp:89-177 | An XREAD, blocking or not, leaves keyspace and file as they are. |
| RecoveryLimits.WokenPopExample | src/handler/list_commands.cpp:157-168 | Client 2 waits with BLPOP k 0, client 1 pushes a: the element goes to client 2, the server holds an empty list, the file restores the element. |
| Recovery.QueuedWriteIsLogged | src/handler/command_handler.cpp:492-500 | A write-named command that is only queued in MULTI is logged, answered with QUEUED, and changes no data. |
| Geo.SpreadIsMorton | src/geo/geo_score.hpp:18-26 | For every 32-bit word the mask-and-shift rounds compute exactly the bit-by-bit interleaving with zeros. |
| Geo.UnspreadInterleave | src/geo/geo_score.hpp:34-42 | Unspreading an interleaved score, and the score shifted by one, recovers both 32-bit words. |
| Geo.WordBelow | src/geo/geo_score.hpp:28-32 | An interleaved score is below 2^52 if and only if both cell words are below 2^26. |
| Geo.CellRange | src/geo/geo_score.hpp:28-32 | A coordinate in range falls into a cell from 0 to 2^26, and below 2^26 if and only if it is strictly below its maximum. |
| Geo.CellsRecovered | src/geo/geo_score.hpp:28-55 | Decoding recovers both cell numbers of every position in range. |
| Geo.GeoRoundTrip | src/geo/geo_score.hpp:28-55 | Decoding an encoded position gives, on each axis, a point at most half a cell away. |
| Geo.ScoreFits | src/geo/geo_score.hpp:28-32 | The score is below 2^52 if and only if both coordinates are strictly below their maxima. |
| ConnectionPools.DoOk | src/connection/connection_pool.cpp:5-69 | Every operation keeps: pending bytes mean dirty, dirty means listed. |
| ConnectionPools.FlushAllDoes | src/connection/connection_pool.cpp:59-69 | A flush leaves nothing pending, also with stale and repeated descriptors in the list; the socket gets a prefix of what was pending, all of it exactly when it takes it all. |
| ConnectionPools.NothingStaysPending | src/connection/connection_pool.cpp:5-69 | After any run of adds, removes, reuses, sends and flushes, one more flush leaves nothing pending anywhere, and hands every socket the prefix it takes. |
| ConnectionPools.InOrder | src/connection/connection_pool.cpp:5-69 | In every run, what a socket has taken followed by what is pending is what was sent to the connection since it was added, in order and without a gap, if and only if no flush since then met a socket that took less than all. |
| ConnectionPools.ConnectionPool.Add | src/connection/connection_pool.cpp:12-14 | A fresh connection replaces whatever the descriptor had. |
| ConnectionPools.ConnectionPool.Remove | src/connection/connection_pool.cpp:16-18 | The connection goes; its place in the dirty list stays. |
| ConnectionPools.ConnectionPool.SendData | src/connection/connection_pool.cpp:36-43 | Bytes are appended and the connection marked dirty; unknown descriptors are ignored. |
| ConnectionPools.ConnectionPool.Flush | src/connection/connection_pool.cpp:59-69 | The loop over the dirty list flushes and clears every listed connection and empties the list. |
| PubSub.MapsAgree | src/pubsub/pubsub_manager.hpp:19-60 | Every run keeps the two maps mutually inverse without empty buckets, and they stand for exactly the subscriptions made and not taken back. |
| PubSub.PubSubManager.SubscribeTo | src/pubsub/pubsub_manager.hpp:19-23 | Both maps gain the pair; returns the client's number of channels. |
| PubSub.PubSubManager.UnsubscribeFrom | src/pubsub/pubsub_manager.hpp:25-44 | Both maps lose the pair and emptied buckets go; returns the remaining number, 0 for unknown clients. |
| PubSub.PubSubManager.UnsubscribeAll | src/pubsub/pubsub_manager.hpp:46-60 | The client leaves every channel; emptied channels go. |
| PubSub.PubSubManager.IsSubscribed | src/pubsub/pubsub_manager.hpp:62-65 | True exactly when the client wants some channel. |
| PubSub.PubSubManager.GetSubscribers | src/pubsub/pubsub_manager.hpp:67-71 | Exactly the clients subscribed to the channel. |

## Left out

- Sockets, epoll, signals, fork and waitpid, fsync, partial file writes and the non-atomic manifest write: files are byte
  strings, and a rewrite child is a step that runs, fails or finishes.
- Replies as bytes: a reply is a value, KEYS is a set of keys, and the error text of GEOADD leaves out its two numbers.
- WAIT, PSYNC, the replica handshake, the RDB parser, and propagation from the master's side.
- AUTH, ACL, SHA-256, and the command restriction of subscribed connections.
- GEOPOS, GEODIST, GEOSEARCH, CONFIG, INFO, PING, ECHO, BGREWRITEAOF's reply, `Store::del` and `Store::zgetall`: they would
  add easy members or trigonometry.
- A replica applying its stream while clients wait on it: wake-ups are proved for client commands.
- Undefined behaviour of the code: an empty command is answered with its intended error, a command accepted early is cut
  at the end of the buffer, a ZADD without its last member ends in a reply `Undefined`, and integer overflow wraps.
- The sign of a zero score and the wrap-around of the 64-bit version counter and of clock arithmetic.
- A descriptor's connection state beyond its transaction and its pending bytes; the code's two places for transaction
  state (connection or table) are one map.
- Handlers.CommandHandler.HandleGeoadd: the range check and the score are a parameter, because scores are abstract
  ordered values here while `Geo` computes over the reals; the error text leaves out the two numbers.
- Handlers.CommandHandler.Handle: covers the 23 keyspace commands; the other rows of the table are the ones named above.
- Dispatch.Dispatcher.Execute: names of table rows that are not modelled are answered as unknown.
- Dispatch.Dispatcher.ProcessSingle: starts behind the gates for subscribed and unauthenticated connections.
- SortedSets.SortedSet.AddMember: the class shows the edits in place; `Store` keeps sorted sets as values and calls `Add`
  and `Remove`, which the class is proved to compute, so sharing of a set between keys is not captured.
- Transactions.TransactionRecovers: a transaction lies in one batch; one that is spread over deliveries with other clients'
  writes between is shown by the run in `Recovery.InterleavedExample`, without a condition of its own.
- Resp.EncodeArrayInto: lengths must be below 10^11, the capacity of the digit buffer in the code.
- Stores.Store.Zrank: asks for the keyspace invariant, which Invariants.ExecOk keeps; so do Xrange and Xread.

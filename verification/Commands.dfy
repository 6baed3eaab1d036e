/** What each keyspace command does, as values (the handlers of src/handler over src/store/store.cpp).

    A command that names one key is a function of that key's live entry and of the wait queues: it yields a
    change of the entry, new queues, a reply for the caller and messages for woken clients. MSET, KEYS and XREAD
    look at several keys. `Handlers` proves that the code's loops compute exactly this.

    `live` is true when a client is served: a send callback and the blocking manager are present. It is false
    when the append-only file is replayed at start-up. */
module Commands {
  import opened Base
  import opened Decimal
  import opened StreamIds
  import opened SortedSets
  import opened Keyspace
  import opened Blocking

  /** One command's clock readings in milliseconds: steady time, and wall time for generated stream ids. */
  datatype Clock = Clock(now: int, wall: int)

  predicate ClockOk(c: Clock) {
    0 <= c.wall <= INT64_MAX
  }

  /** Floating point as the code sees it: text to double, double to text (`%.17g`), seconds to whole
      milliseconds, and the geohash score of a latitude and longitude if they are in range. */
  datatype Env = Env(
    parse: Bytes -> Option<Score>,
    format: Score -> Bytes,
    millis: Score -> int,
    geo: (Score, Score) -> Option<Score>
  )

  datatype Reply =
    | Ok
    | Queued
    | Simple(text: Bytes)
    | Error(text: Bytes)
    | Integer(n: int)
    | Bulk(text: Bytes)
    | NullBulk
    | NullArray
    | Array(items: seq<Bytes>)
    | KeySet(keys: set<Bytes>) // an array in the hash table's order
    | Entries(stream: seq<StreamEntry>)
    | Streams(streams: seq<(Bytes, seq<StreamEntry>)>)
    | Batch(replies: seq<Reply>)
    | Undefined // the code reads past its arguments here

  datatype Send = Send(fd: int, reply: Reply)

  datatype Core = Core(db: Db, wait: Waiting)

  /** No reply means that the caller now waits. */
  datatype Outcome = Outcome(core: Core, reply: Option<Reply>, sends: seq<Send>)

  datatype Cmd =
    | SET | MSET | GET | INCR | RPUSH | LPUSH | LLEN | LPOP | RPOP | LRANGE | BLPOP | TYPE | KEYS
    | XADD | ZADD | ZRANK | ZRANGE | ZCARD | ZSCORE | ZREM | GEOADD | XRANGE | XREAD

  /** The arity column of the command table. */
  function MinArgs(cmd: Cmd): (n: nat) {
    match cmd
    case GET | INCR | LLEN | LPOP | RPOP | TYPE | KEYS | ZCARD => 2
    case SET | MSET | RPUSH | LPUSH | BLPOP | ZRANK | ZSCORE | ZREM => 3
    case LRANGE | XADD | ZADD | ZRANGE | XRANGE | XREAD => 4
    case GEOADD => 5
  }

  const WRONGTYPE: Bytes := "WRONGTYPE " + "Operation against a key holding the wrong kind of value"
  const NOT_AN_INTEGER: Bytes := "ERR value" + " is not an integer or out of range"
  const NOT_A_FLOAT: Bytes := "ERR value" + " is not a valid float"
  const SYNTAX: Bytes := "ERR syntax error"
  const NO_BLOCKING: Bytes := "ERR blocking" + " not available"
  const NEGATIVE_TIMEOUT: Bytes := "ERR timeout" + " is negative"
  const BAD_PAIR: Bytes := "ERR invalid" + " longitude,latitude pair"
  const MSET_ARITY: Bytes := "ERR wrong" + " number of arguments for MSET"
  const XADD_ARITY: Bytes := "ERR wrong" + " number of arguments for 'xadd' command"
  const XREAD_ARITY: Bytes := "ERR wrong" + " number of arguments for 'xread' command"
  const ONE_STREAM: Bytes := "ERR BLOCK" + " only supports single stream"

  // ---------------------------------------------------------------- commands that name one key

  datatype Change = Change(entry: Option<Entry>, touches: nat)

  /** Without a change the store is not called at all. */
  datatype Act = Act(change: Option<Change>, wait: Waiting, reply: Option<Reply>, sends: seq<Send>)

  function Refuse(wait: Waiting, reply: Reply): (r: Act) {
    Act(None, wait, Some(reply), [])
  }

  function Do<R>(wait: Waiting, e: Effect<R>, reply: Reply): (r: Act) {
    Act(Some(Change(e.entry, e.touches)), wait, Some(reply), [])
  }

  /** A read: the entry stays as it is. */
  function Read(wait: Waiting, cur: Option<Entry>, reply: Reply): (r: Act) {
    Act(Some(Change(cur, 0)), wait, Some(reply), [])
  }

  datatype Ttl = TtlIs(ttl: Option<nat>) | TtlError(text: Bytes)

  /** The option loop of SET; `EX` seconds are multiplied in 64-bit unsigned arithmetic. */
  function ScanOptions(args: seq<Bytes>, i: nat, ttl: Option<nat>): (r: Ttl)
    ensures r.TtlIs? && r.ttl.Some? && (ttl.Some? ==> ttl.value < UINT64_SIZE) ==> r.ttl.value < UINT64_SIZE
    decreases |args| - i
  {
    if i >= |args| then TtlIs(ttl)
    else
      var option := ToUpper(args[i]);
      if option == "EX" || option == "PX" then
        if i + 1 >= |args| then TtlError(SYNTAX)
        else
          match ParseUInt64(args[i + 1])
          case None => TtlError(NOT_AN_INTEGER)
          case Some(n) => ScanOptions(args, i + 2, Some(if option == "EX" then n * 1000 % UINT64_SIZE else n))
      else ScanOptions(args, i + 1, ttl)
  }

  function ActSet(c: Clock, cur: Option<Entry>, wait: Waiting, args: seq<Bytes>): (r: Act)
    requires |args| >= 3
  {
    match ScanOptions(args, 3, None)
    case TtlError(text) => Refuse(wait, Error(text))
    case TtlIs(ttl) =>
      var e := SetIf(cur, args[2], Deadline(c.now, ttl));
      Do(wait, e, if e.out then Ok else Error(WRONGTYPE))
  }

  function ActIncr(cur: Option<Entry>, wait: Waiting): (r: Act) {
    var e := IncrIf(cur);
    Do(wait, e, if e.out.Some? then Integer(e.out.value) else Error(NOT_AN_INTEGER))
  }

  function ActPop(cur: Option<Entry>, wait: Waiting, args: seq<Bytes>, left: bool): (r: Act)
    requires |args| >= 2
  {
    if |args| == 2 then
      var e := Pop(cur, 1, left);
      Do(wait, e, if e.out == [] then NullBulk else Bulk(e.out[0]))
    else
      match ParseInt64(args[2])
      case None => Refuse(wait, Error(NOT_AN_INTEGER))
      case Some(n) =>
        if n <= 0 then Refuse(wait, Array([]))
        else
          var e := Pop(cur, n, left);
          Do(wait, e, Array(e.out))
  }

  function ActBlpop(env: Env, c: Clock, live: bool, fd: int, cur: Option<Entry>, wait: Waiting, args: seq<Bytes>)
    : (r: Act)
    requires |args| >= 3
  {
    match env.parse(args[2])
    case None => Refuse(wait, Error(NOT_AN_INTEGER))
    case Some(timeout) =>
      if timeout < 0 then Refuse(wait, Error(NEGATIVE_TIMEOUT))
      else
        var e := Pop(cur, 1, true);
        if e.out != [] then Do(wait, e, Array([args[1], e.out[0]]))
        else if !live then Do(wait, e, Error(NO_BLOCKING))
        else Act(Some(Change(e.entry, e.touches)),
                 Block(wait, fd, args[1], ZERO, env.millis(timeout), Popper, c.now), None, [])
  }

  /** The state of a push command between two of its values. */
  datatype Pushing = Pushing(entry: Option<Entry>, touches: nat, wait: Waiting, sends: seq<Send>, count: int)

  /** `try_wake`: the front waiter leaves and gets the head of the list, if there is one. */
  function TryWake(p: Pushing, key: Bytes): (r: Pushing)
    requires Queue(p.wait, key) != []
  {
    var e := Pop(p.entry, 1, true);
    var x := Queue(p.wait, key)[0];
    Pushing(e.entry, p.touches + e.touches, Wake(p.wait, key).0,
            if e.out == [] then p.sends else p.sends + [Send(x.fd, Array([key, e.out[0]]))], p.count)
  }

  /** The loop over the remaining values: while somebody waits, a waiter is woken instead of pushing. */
  function PushRest(p: Pushing, key: Bytes, vals: seq<Bytes>, left: bool, live: bool): (r: Pushing)
    decreases |vals|
  {
    if vals == [] then p
    else if live && Queue(p.wait, key) != [] then PushRest(TryWake(p, key), key, vals[1..], left, live)
    else
      var e := Push(p.entry, vals[0], left);
      PushRest(p.(entry := e.entry, touches := p.touches + e.touches, count := e.out), key, vals[1..], left, live)
  }

  function ActPush(live: bool, cur: Option<Entry>, wait: Waiting, args: seq<Bytes>, left: bool): (r: Act)
    requires |args| >= 3
  {
    var e := PushIf(cur, args[2], left);
    if e.out.None? then Do(wait, e, Error(WRONGTYPE))
    else
      var p := Pushing(e.entry, e.touches, wait, [], e.out.value);
      var q := if live && Queue(wait, args[1]) != [] then TryWake(p, args[1]) else p;
      var r := PushRest(q, args[1], args[3..], left, live);
      Act(Some(Change(r.entry, r.touches)), r.wait, Some(Integer(r.count)), r.sends)
  }

  function Pairs(args: seq<Bytes>): (r: seq<(Bytes, Bytes)>)
    requires |args| % 2 == 0
    ensures |r| == |args| / 2
  {
    if args == [] then [] else [(args[0], args[1])] + Pairs(args[2..])
  }

  /** The wake loop of XADD: every waiter behind the new entry leaves and is sent what it has not read. */
  function ServeReaders(wait: Waiting, key: Bytes, id: StreamId, stream: seq<StreamEntry>, sends: seq<Send>)
    : (r: (Waiting, seq<Send>))
    decreases |Queue(wait, key)|
  {
    var (rest, x) := WakeBehind(wait, key, id);
    if x.None? then (wait, sends)
    else
      var news := Streams([(key, After(stream, Threshold(IdText(x.value.lastId))))]);
      ServeReaders(rest, key, id, stream, sends + [Send(x.value.fd, news)])
  }

  function ActXadd(c: Clock, live: bool, cur: Option<Entry>, wait: Waiting, args: seq<Bytes>): (r: Act)
    requires |args| >= 4
  {
    if (|args| - 3) % 2 != 0 then Refuse(wait, Error(XADD_ARITY))
    else
      var e := XaddIf(cur, args[2], Pairs(args[3..]), c.wall);
      match e.out
      case WrongType => Do(wait, e, Error(WRONGTYPE))
      case Refused(text) => Do(wait, e, Error(text))
      case Added(id) =>
        var sid := ParseId(id);
        var (rest, sends) := if live && sid.Some? && e.entry.Some? && e.entry.value.value.Strm?
                             then ServeReaders(wait, args[1], sid.value, e.entry.value.value.stream, [])
                             else (wait, []);
        Act(Some(Change(e.entry, e.touches)), rest, Some(Bulk(id)), sends)
  }

  /** The loop of ZADD over the pairs after the first. */
  function ZaddRest(env: Env, e: Effect<int>, args: seq<Bytes>, i: nat): (r: Effect<Reply>)
    decreases |args| - i
  {
    if i >= |args| then Effect(e.entry, e.touches, Integer(e.out))
    else
      match env.parse(args[i])
      case None => Effect(e.entry, e.touches, Error(NOT_A_FLOAT))
      case Some(score) =>
        if i + 1 >= |args| then Effect(e.entry, e.touches, Undefined)
        else
          var a := Zadd(e.entry, score, args[i + 1]);
          ZaddRest(env, Effect(a.entry, e.touches + a.touches, e.out + a.out), args, i + 2)
  }

  function ActZadd(env: Env, cur: Option<Entry>, wait: Waiting, args: seq<Bytes>): (r: Act)
    requires |args| >= 4
  {
    match env.parse(args[2])
    case None => Refuse(wait, Error(NOT_A_FLOAT))
    case Some(score) =>
      var a := ZaddIf(cur, score, args[3]);
      if a.out.None? then Do(wait, a, Error(WRONGTYPE))
      else
        var e := ZaddRest(env, Effect(a.entry, a.touches, a.out.value), args, 4);
        Do(wait, e, e.out)
  }

  /** `refused` is the outcome of GEOADD's own type check, which is not a function of the live entry. */
  function ActGeoadd(env: Env, refused: bool, cur: Option<Entry>, wait: Waiting, args: seq<Bytes>): (r: Act)
    requires |args| >= 5
  {
    if refused then Refuse(wait, Error(WRONGTYPE))
    else
      var lon, lat := env.parse(args[2]), env.parse(args[3]);
      if lon.None? || lat.None? then Refuse(wait, Error(NOT_A_FLOAT))
      else
        match env.geo(lat.value, lon.value)
        case None => Refuse(wait, Error(BAD_PAIR))
        case Some(score) =>
          var e := Zadd(cur, score, args[4]);
          Do(wait, e, Integer(e.out))
  }

  function TypeName(v: Option<Value>): (r: Bytes) {
    match v
    case None => "none"
    case Some(Str(_)) => "string"
    case Some(Lst(_)) => "list"
    case Some(Strm(_)) => "stream"
    case Some(Zst(_)) => "zset"
  }

  /** LRANGE and ZRANGE: both bounds must be integers. */
  function RangeReply(args: seq<Bytes>, items: seq<Bytes>): (r: Reply)
    requires |args| >= 4
  {
    var start, stop := ParseInt64(args[2]), ParseInt64(args[3]);
    if start.None? || stop.None? then Error(NOT_AN_INTEGER)
    else
      match RangeBounds(|items|, start.value, stop.value)
      case None => Array([])
      case Some((lo, hi)) => Array(items[lo..hi + 1])
  }

  predicate BadBounds(args: seq<Bytes>)
    requires |args| >= 4
  {
    ParseInt64(args[2]).None? || ParseInt64(args[3]).None?
  }

  predicate IsRead(cmd: Cmd) {
    cmd.GET? || cmd.LLEN? || cmd.LRANGE? || cmd.TYPE? || cmd.ZRANK? || cmd.ZRANGE? || cmd.ZCARD? || cmd.ZSCORE? || cmd.XRANGE?
  }

  /** Commands that only look at the key's value. */
  function ReadReply(env: Env, cmd: Cmd, v: Option<Value>, args: seq<Bytes>): (r: Reply)
    requires |args| >= MinArgs(cmd)
    requires IsRead(cmd)
  {
    var z := ZsetOf(v);
    match cmd
    case GET => if v.Some? && v.value.Str? then Bulk(v.value.text) else NullBulk
    case LLEN => Integer(|ItemsOf(v)|)
    case LRANGE => RangeReply(args, ItemsOf(v))
    case TYPE => Simple(TypeName(v))
    case ZRANK => if args[2] in z.index then Integer(Below(z.entries, z.index[args[2]])) else NullBulk
    case ZRANGE => RangeReply(args, Members(z.entries))
    case ZCARD => Integer(|z.index|)
    case ZSCORE => if args[2] in z.index then Bulk(env.format(z.index[args[2]].0)) else NullBulk
    case XRANGE => Entries(Between(StreamOf(v), StartBound(args[2]), EndBound(args[3])))
  }

  predicate IsSingle(cmd: Cmd) {
    !cmd.MSET? && !cmd.KEYS? && !cmd.XREAD?
  }

  function ActOn(env: Env, c: Clock, live: bool, fd: int, cmd: Cmd, cur: Option<Entry>, wait: Waiting,
                 refused: bool, args: seq<Bytes>): (r: Act)
    requires IsSingle(cmd) && |args| >= MinArgs(cmd)
  {
    match cmd
    case SET => ActSet(c, cur, wait, args)
    case INCR => ActIncr(cur, wait)
    case RPUSH => ActPush(live, cur, wait, args, false)
    case LPUSH => ActPush(live, cur, wait, args, true)
    case LPOP => ActPop(cur, wait, args, true)
    case RPOP => ActPop(cur, wait, args, false)
    case BLPOP => ActBlpop(env, c, live, fd, cur, wait, args)
    case XADD => ActXadd(c, live, cur, wait, args)
    case ZADD => ActZadd(env, cur, wait, args)
    case ZREM => var e := Zrem(cur, args[2]); Do(wait, e, Integer(e.out))
    case GEOADD => ActGeoadd(env, refused, cur, wait, args)
    case LRANGE | ZRANGE =>
      if BadBounds(args) then Refuse(wait, Error(NOT_AN_INTEGER))
      else Read(wait, cur, ReadReply(env, cmd, Seen(cur).out, args))
    case GET | LLEN | TYPE | ZRANK | ZCARD | ZSCORE | XRANGE =>
      Read(wait, cur, ReadReply(env, cmd, Seen(cur).out, args))
  }

  // ---------------------------------------------------------------- commands that name several keys

  predicate AllTakeStrings(db: Db, now: int, args: seq<Bytes>, i: nat)
    decreases |args| - i
  {
    i >= |args| || (AbsentOrHolds(db, args[i], StrKind, now) && AllTakeStrings(db, now, args, i + 2))
  }

  function SetPairs(db: Db, args: seq<Bytes>, i: nat): (r: Db)
    requires i <= |args| && (|args| - i) % 2 == 0
    decreases |args| - i
  {
    if i == |args| then db else SetPairs(Apply(db, args[i], SetAny(args[i + 1], None)), args, i + 2)
  }

  function ExecMset(c: Clock, core: Core, args: seq<Bytes>): (r: Outcome)
    requires |args| >= 3
  {
    if (|args| - 1) % 2 != 0 then Outcome(core, Some(Error(MSET_ARITY)), [])
    else if !AllTakeStrings(core.db, c.now, args, 1) then Outcome(core, Some(Error(WRONGTYPE)), [])
    else Outcome(core.(db := SetPairs(core.db, args, 1)), Some(Ok), [])
  }

  function ExecKeys(c: Clock, core: Core): (r: Outcome) {
    var db := Purge(core.db, c.now);
    Outcome(core.(db := db), Some(KeySet(db.data.Keys)), [])
  }

  /** The arguments of an XREAD, checked in the code's order. */
  datatype ReadArgs = ReadBad(text: Bytes) | ReadOk(block: Option<int>, keys: seq<Bytes>, ids: seq<Bytes>)

  function FindStreams(args: seq<Bytes>, i: nat): (r: nat)
    ensures r == 0 || i <= r < |args|
    decreases |args| - i
  {
    if i >= |args| then 0 else if ToUpper(args[i]) == "STREAMS" then i else FindStreams(args, i + 1)
  }

  function ReadStreamArgs(args: seq<Bytes>, block: Option<int>, start: nat): (r: ReadArgs)
    ensures r.ReadOk? ==> |r.keys| == |r.ids| >= 1 && r.block == block && (block.Some? ==> |r.keys| == 1)
  {
    var at := FindStreams(args, start);
    if at == 0 then ReadBad(SYNTAX)
    else
      var pairs := |args| - at - 1;
      if pairs == 0 || pairs % 2 != 0 then ReadBad(XREAD_ARITY)
      else
        var n := pairs / 2;
        if block.Some? && n != 1 then ReadBad(ONE_STREAM)
        else ReadOk(block, args[at + 1..at + 1 + n], args[at + 1 + n..])
  }

  function ParseRead(args: seq<Bytes>): (r: ReadArgs)
    requires |args| >= 4
    ensures r.ReadOk? ==> |r.keys| == |r.ids| >= 1 && (r.block.Some? ==> |r.keys| == 1)
  {
    if ToUpper(args[1]) == "BLOCK" then
      match ParseInt64(args[2])
      case None => ReadBad(NOT_AN_INTEGER)
      case Some(timeout) => ReadStreamArgs(args, Some(timeout), 3)
    else ReadStreamArgs(args, None, 1)
  }

  /** `$` stands for the newest id at the time of the call. */
  function ResolveId(stream: seq<StreamEntry>, id: Bytes): (r: Bytes) {
    if id == "$" then OrElse(MaxId(stream), "0-0") else id
  }

  function StreamAt(db: Db, key: Bytes, now: int): (r: seq<StreamEntry>) {
    StreamOf(Seen(Find(db, key, now)).out)
  }

  function ReadOne(db: Db, key: Bytes, id: Bytes, now: int): (r: seq<StreamEntry>) {
    After(StreamAt(db, key, now), Threshold(ResolveId(StreamAt(db, key, now), id)))
  }

  /** Reading drops the dead entries it meets. */
  function Visit(db: Db, keys: seq<Bytes>, now: int): (r: Db)
    decreases |keys|
  {
    if keys == [] then db
    else Visit(Apply(db, keys[0], Seen(Find(db, keys[0], now))), keys[1..], now)
  }

  function ReadAll(db: Db, keys: seq<Bytes>, ids: seq<Bytes>, now: int): (r: seq<(Bytes, seq<StreamEntry>)>)
    requires |keys| == |ids|
    ensures |r| == |keys|
  {
    if keys == [] then [] else [(keys[0], ReadOne(db, keys[0], ids[0], now))] + ReadAll(db, keys[1..], ids[1..], now)
  }

  predicate AnyData(results: seq<(Bytes, seq<StreamEntry>)>) {
    exists i :: 0 <= i < |results| && results[i].1 != []
  }

  /** The id an XREAD waiter is recorded with. */
  function WaiterId(stream: seq<StreamEntry>, id: Bytes): (r: StreamId) {
    OrElse(ParseId(ResolveId(stream, id)), ZERO)
  }

  /** The waiter is recorded with the id it was checked against: `$`, an id that parses, or one that both readings take
      for 0-0. */
  predicate Recorded(id: Bytes) {
    id == "$" || ParseId(id).Some? || ('-' !in id && OrElse(ParseInt64(id), 0) == 0)
  }

  function ExecXread(c: Clock, live: bool, core: Core, fd: int, args: seq<Bytes>): (r: Outcome)
    requires |args| >= 4
  {
    match ParseRead(args)
    case ReadBad(text) => Outcome(core, Some(Error(text)), [])
    case ReadOk(block, keys, ids) =>
      var results := ReadAll(core.db, keys, ids, c.now);
      var db := Visit(core.db, keys, c.now);
      if AnyData(results) || block.None? then Outcome(core.(db := db), Some(Streams(results)), [])
      else if !live then Outcome(core.(db := db), Some(Error(NO_BLOCKING)), [])
      else
        var wait := Block(core.wait, fd, keys[0], WaiterId(StreamAt(db, keys[0], c.now), ids[0]), block.value,
                          Reader(Recorded(ids[0])), c.now);
        Outcome(Core(db, wait), None, [])
  }

  // ---------------------------------------------------------------- all commands

  function Perform(core: Core, key: Bytes, a: Act): (r: Outcome) {
    var db := if a.change.None? then core.db else Put(core.db, key, a.change.value.entry, a.change.value.touches);
    Outcome(Core(db, a.wait), a.reply, a.sends)
  }

  function GeoRefused(db: Db, key: Bytes, now: int): (r: bool) {
    !AbsentOrHolds(db, key, ZstKind, now)
  }

  function Exec(env: Env, c: Clock, live: bool, core: Core, fd: int, cmd: Cmd, args: seq<Bytes>): (r: Outcome)
    requires |args| >= MinArgs(cmd)
  {
    if cmd.MSET? then ExecMset(c, core, args)
    else if cmd.KEYS? then ExecKeys(c, core)
    else if cmd.XREAD? then ExecXread(c, live, core, fd, args)
    else Perform(core, args[1], ActOn(env, c, live, fd, cmd, Find(core.db, args[1], c.now), core.wait,
                                      GeoRefused(core.db, args[1], c.now), args))
  }
}

/** The keyspace (src/store/store.hpp, src/store/store.cpp) as values: a typed map with lazy expiry and a
    version per key. Every single-key operation is a function of the key's live entry; `Apply` writes its
    result back. A dead entry is removed by the operation that meets it. */
module Keyspace {
  import opened Base
  import opened Decimal
  import opened StreamIds
  import opened SortedSets

  datatype StreamEntry = StreamEntry(id: Bytes, parsed: StreamId, fields: seq<(Bytes, Bytes)>)

  datatype Value =
    | Str(text: Bytes)
    | Lst(items: seq<Bytes>)
    | Strm(stream: seq<StreamEntry>)
    | Zst(zset: ZSet)

  datatype Entry = Entry(value: Value, expiry: Option<int>)

  datatype Db = Db(data: map<Bytes, Entry>, counter: nat, versions: map<Bytes, nat>)

  const EMPTY_DB: Db := Db(map[], 0, map[])

  // ---------------------------------------------------------------- expiry and versions

  /** `is_expired`: dead from its expiry instant on. */
  predicate Expired(e: Entry, now: int) {
    e.expiry.Some? && now >= e.expiry.value
  }

  /** `find_valid_entry`, without its erasure of a dead entry. */
  function Find(db: Db, key: Bytes, now: int): (r: Option<Entry>) {
    if key in db.data && !Expired(db.data[key], now) then Some(db.data[key]) else None
  }

  function Version(db: Db, key: Bytes): (v: nat) {
    if key in db.versions then db.versions[key] else 0
  }

  /** `touch_key`, called `n` times. */
  function Touch(db: Db, key: Bytes, n: nat): (r: Db) {
    if n == 0 then db
    else db.(counter := db.counter + n, versions := db.versions[key := db.counter + n])
  }

  /** What an operation makes of a key's live entry, how often it calls `touch_key`, and its answer. */
  datatype Effect<+R> = Effect(entry: Option<Entry>, touches: nat, out: R)

  function Put(db: Db, key: Bytes, entry: Option<Entry>, touches: nat): (r: Db) {
    Touch(db, key, touches).(data := if entry.Some? then db.data[key := entry.value] else db.data - {key})
  }

  function Apply<R>(db: Db, key: Bytes, e: Effect<R>): (r: Db) {
    Put(db, key, e.entry, e.touches)
  }

  /** Two operations on the same key in a row. */
  lemma PutTwice(db: Db, key: Bytes, a: Option<Entry>, m: nat, b: Option<Entry>, n: nat)
    ensures Put(Put(db, key, a, m), key, b, n) == Put(db, key, b, m + n)
  {}

  /** A read: nothing changes except that a dead entry is dropped. */
  function Seen(cur: Option<Entry>): (r: Effect<Option<Value>>) {
    Effect(cur, 0, if cur.Some? then Some(cur.value.value) else None)
  }

  // ---------------------------------------------------------------- strings

  function Deadline(now: int, ttl: Option<nat>): (r: Option<int>) {
    if ttl.Some? then Some(now + ttl.value) else None
  }

  /** `set_if_valid_type`. */
  function SetIf(cur: Option<Entry>, text: Bytes, expiry: Option<int>): (r: Effect<bool>) {
    if cur.Some? && !cur.value.value.Str? then Effect(cur, 0, false)
    else Effect(Some(Entry(Str(text), expiry)), 1, true)
  }

  /** `set`: overwrites whatever is there. */
  function SetAny(text: Bytes, expiry: Option<int>): (r: Effect<bool>) {
    Effect(Some(Entry(Str(text), expiry)), 1, true)
  }

  /** `incr_if_valid_type`. */
  function IncrIf(cur: Option<Entry>): (r: Effect<Option<int>>) {
    match cur
    case None => Effect(Some(Entry(Str("1"), None)), 1, Some(1))
    case Some(e) =>
      if !e.value.Str? then Effect(cur, 0, None)
      else
        var n := ParseInt64(e.value.text);
        if n.None? || n.value == INT64_MAX then Effect(cur, 1, None)
        else Effect(Some(e.(value := Str(ToText(n.value + 1)))), 1, Some(n.value + 1))
  }

  // ---------------------------------------------------------------- lists

  /** `get_or_create_typed<List>`: an entry of another type is reset, its expiry kept. */
  function ListEntry(cur: Option<Entry>): (r: Entry)
    ensures r.value.Lst?
  {
    match cur
    case None => Entry(Lst([]), None)
    case Some(e) => if e.value.Lst? then e else e.(value := Lst([]))
  }

  /** `rpush` and `lpush`. */
  function Push(cur: Option<Entry>, v: Bytes, left: bool): (r: Effect<int>) {
    var e := ListEntry(cur);
    var items := if left then [v] + e.value.items else e.value.items + [v];
    Effect(Some(e.(value := Lst(items))), 1, |items|)
  }

  /** `rpush_if_valid_type` and `lpush_if_valid_type`. */
  function PushIf(cur: Option<Entry>, v: Bytes, left: bool): (r: Effect<Option<int>>) {
    if cur.Some? && !cur.value.value.Lst? then Effect(cur, 0, None)
    else
      var p := Push(cur, v, left);
      Effect(p.entry, p.touches, Some(p.out))
  }

  function Reversed(s: seq<Bytes>): (r: seq<Bytes>) {
    if s == [] then [] else [s[|s| - 1]] + Reversed(s[..|s| - 1])
  }

  /** `lpop` and `rpop` with a count; the emptied list stays. */
  function Pop(cur: Option<Entry>, count: int, left: bool): (r: Effect<seq<Bytes>>) {
    if cur.None? || !cur.value.value.Lst? || count <= 0 then Effect(cur, 1, [])
    else
      var items := cur.value.value.items;
      var n := if count < |items| then count else |items|;
      if left then Effect(Some(cur.value.(value := Lst(items[n..]))), 1, items[..n])
      else Effect(Some(cur.value.(value := Lst(items[..|items| - n]))), 1, Reversed(items[|items| - n..]))
  }

  // ---------------------------------------------------------------- sorted sets

  function ZsetEntry(cur: Option<Entry>): (r: Entry)
    ensures r.value.Zst?
  {
    match cur
    case None => Entry(Zst(SortedSets.EMPTY), None)
    case Some(e) => if e.value.Zst? then e else e.(value := Zst(SortedSets.EMPTY))
  }

  /** `zadd`. */
  function Zadd(cur: Option<Entry>, score: Score, member: Bytes): (r: Effect<int>) {
    var e := ZsetEntry(cur);
    Effect(Some(e.(value := Zst(Add(e.value.zset, score, member)))), 1,
           if member in e.value.zset.index then 0 else 1)
  }

  /** `zadd_if_valid_type`. */
  function ZaddIf(cur: Option<Entry>, score: Score, member: Bytes): (r: Effect<Option<int>>) {
    if cur.Some? && !cur.value.value.Zst? then Effect(cur, 0, None)
    else
      var a := Zadd(cur, score, member);
      Effect(a.entry, a.touches, Some(a.out))
  }

  /** `zrem`. */
  function Zrem(cur: Option<Entry>, member: Bytes): (r: Effect<int>) {
    if cur.None? || !cur.value.value.Zst? then Effect(cur, 1, 0)
    else
      var z := cur.value.value.zset;
      Effect(Some(cur.value.(value := Zst(Remove(z, member)))), 1, if member in z.index then 1 else 0)
  }

  // ---------------------------------------------------------------- streams

  datatype XaddResult = Added(id: Bytes) | Refused(message: Bytes) | WrongType

  const BAD_ID: Bytes := "ERR Invalid" + " stream ID specified"
  const ZERO_ID: Bytes := "ERR The" + " ID specified in XADD must be greater than 0-0"
  const SMALL_ID: Bytes := "ERR The" + " ID specified in XADD is equal or smaller than the target stream top item"

  const ZERO: StreamId := StreamId(0, 0)
  const TOP: StreamId := StreamId(INT64_MAX, INT64_MAX)

  datatype Choice = Choice(text: Bytes, id: StreamId)

  /** The id an XADD asks for: `*`, `ms-*`, or explicit. */
  function ChooseId(stream: seq<StreamEntry>, id: Bytes, wall: int): (r: Option<Choice>) {
    var last := if stream == [] then None else Some(stream[|stream| - 1].parsed);
    if id == "*" then
      var sequence := if last.Some? && last.value.timestamp == wall then Wrap64(last.value.sequence + 1) else 0;
      var sid := StreamId(wall, sequence);
      Some(Choice(IdText(sid), sid))
    else if |id| >= 2 && id[|id| - 2] == '-' && id[|id| - 1] == '*' then
      match ParseInt64(id[..IndexOf(id, '-')])
      case None => None
      case Some(ts) =>
        var sequence := if last.Some? && last.value.timestamp == ts then Wrap64(last.value.sequence + 1)
                        else if ts == 0 then 1 else 0;
        var sid := StreamId(ts, sequence);
        Some(Choice(IdText(sid), sid))
    else
      match ParseId(id)
      case None => None
      case Some(sid) => Some(Choice(id, sid))
  }

  /** The checks and the append at the end of `xadd`. */
  function AppendEntry(stream: seq<StreamEntry>, c: Option<Choice>, fields: seq<(Bytes, Bytes)>)
    : (r: (seq<StreamEntry>, XaddResult))
  {
    if c.None? then (stream, Refused(BAD_ID))
    else if c.value.id == ZERO then (stream, Refused(ZERO_ID))
    else if stream != [] && !Less(stream[|stream| - 1].parsed, c.value.id) then (stream, Refused(SMALL_ID))
    else (stream + [StreamEntry(c.value.text, c.value.id, fields)], Added(c.value.text))
  }

  function StreamHolder(cur: Option<Entry>): (r: Entry)
    ensures r.value.Strm?
  {
    match cur
    case None => Entry(Strm([]), None)
    case Some(e) => if e.value.Strm? then e else e.(value := Strm([]))
  }

  /** `xadd`: the stream is created before the id is checked. */
  function Xadd(cur: Option<Entry>, id: Bytes, fields: seq<(Bytes, Bytes)>, wall: int): (r: Effect<XaddResult>) {
    var e := StreamHolder(cur);
    var (stream, out) := AppendEntry(e.value.stream, ChooseId(e.value.stream, id, wall), fields);
    Effect(Some(e.(value := Strm(stream))), 1, out)
  }

  /** `xadd_if_valid_type`. */
  function XaddIf(cur: Option<Entry>, id: Bytes, fields: seq<(Bytes, Bytes)>, wall: int): (r: Effect<XaddResult>) {
    if cur.Some? && !cur.value.value.Strm? then Effect(cur, 0, WrongType) else Xadd(cur, id, fields, wall)
  }

  function OrElse<T>(o: Option<T>, d: T): (r: T) {
    if o.Some? then o.value else d
  }

  function StartBound(s: Bytes): (r: StreamId) {
    if s == "-" then ZERO
    else if '-' !in s then StreamId(OrElse(ParseInt64(s), 0), 0)
    else OrElse(ParseId(s), TOP)
  }

  function EndBound(s: Bytes): (r: StreamId) {
    if s == "+" then TOP
    else if '-' !in s then StreamId(OrElse(ParseInt64(s), 0), INT64_MAX)
    else OrElse(ParseId(s), StreamId(-1, -1))
  }

  /** The exclusive lower bound of an XREAD. */
  function Threshold(s: Bytes): (r: StreamId) {
    if '-' !in s then StreamId(OrElse(ParseInt64(s), 0), 0) else OrElse(ParseId(s), TOP)
  }

  /** The entries from `lo` to `hi`, both included. */
  function Between(stream: seq<StreamEntry>, lo: StreamId, hi: StreamId): (r: seq<StreamEntry>) {
    if stream == [] then []
    else
      var rest := Between(stream[1..], lo, hi);
      if !Less(stream[0].parsed, lo) && !Less(hi, stream[0].parsed) then [stream[0]] + rest else rest
  }

  /** The entries newer than `id`. */
  function After(stream: seq<StreamEntry>, id: StreamId): (r: seq<StreamEntry>) {
    if stream == [] then []
    else
      var rest := After(stream[1..], id);
      if Less(id, stream[0].parsed) then [stream[0]] + rest else rest
  }

  function StreamOf(v: Option<Value>): (r: seq<StreamEntry>) {
    if v.Some? && v.value.Strm? then v.value.stream else []
  }

  function ItemsOf(v: Option<Value>): (r: seq<Bytes>) {
    if v.Some? && v.value.Lst? then v.value.items else []
  }

  function ZsetOf(v: Option<Value>): (r: ZSet) {
    if v.Some? && v.value.Zst? then v.value.zset else SortedSets.EMPTY
  }

  /** `get_stream_max_id`. */
  function MaxId(stream: seq<StreamEntry>): (r: Option<Bytes>) {
    if stream == [] then None else Some(stream[|stream| - 1].id)
  }

  // ---------------------------------------------------------------- type checks that do not erase

  datatype Kind = StrKind | ZstKind

  function KindOf(v: Value): (k: Option<Kind>) {
    if v.Str? then Some(StrKind) else if v.Zst? then Some(ZstKind) else None
  }

  /** `key_is_absent_or_holds`: tests expiry with `>`, so at the exact instant of expiry the dead entry's
      type still counts. */
  predicate AbsentOrHolds(db: Db, key: Bytes, kind: Kind, now: int) {
    key !in db.data ||
    (db.data[key].expiry.Some? && now > db.data[key].expiry.value) ||
    match kind
    case StrKind => db.data[key].value.Str?
    case ZstKind => db.data[key].value.Zst?
  }

  /** What `keys` leaves behind: exactly the live entries. */
  function Purge(db: Db, now: int): (r: Db) {
    db.(data := map k | k in db.data && !Expired(db.data[k], now) :: db.data[k])
  }

  // ---------------------------------------------------------------- invariants of every reachable keyspace

  /** Ids strictly increase; every entry's text parses to its cached id, is not 0-0 and carries fields. */
  predicate StreamOk(stream: seq<StreamEntry>) {
    (forall i, j :: 0 <= i < j < |stream| ==> Less(stream[i].parsed, stream[j].parsed)) &&
    (forall i :: 0 <= i < |stream| ==> StreamEntryOk(stream[i]))
  }

  predicate StreamEntryOk(e: StreamEntry) {
    ParseId(e.id) == Some(e.parsed) && e.parsed != ZERO && e.fields != []
  }

  predicate ValueOk(v: Value) {
    match v
    case Str(_) => true
    case Lst(_) => true
    case Strm(s) => StreamOk(s)
    case Zst(z) => Valid(z)
  }

  /** Only strings carry an expiry, and it lies less than 2^64 ms ahead. */
  predicate EntryOk(e: Entry, now: int) {
    ValueOk(e.value) && (e.expiry.Some? ==> e.value.Str? && e.expiry.value - now < UINT64_SIZE)
  }

  predicate OptOk(e: Option<Entry>, now: int) {
    e.Some? ==> EntryOk(e.value, now)
  }

  predicate VersionsOk(db: Db) {
    forall k :: k in db.versions ==> db.versions[k] <= db.counter
  }

  predicate DbOk(db: Db, now: int) {
    (forall k :: k in db.data ==> EntryOk(db.data[k], now)) && VersionsOk(db)
  }

  lemma LaterOk(db: Db, now: int, later: int)
    requires DbOk(db, now) && now <= later
    ensures DbOk(db, later)
  {}

  // ---------------------------------------------------------------- streams stay in order

  /** Every id form yields text that parses to the chosen id, whatever the sequence counter does. */
  lemma ChosenIdParses(stream: seq<StreamEntry>, id: Bytes, wall: int)
    requires 0 <= wall <= INT64_MAX
    ensures var c := ChooseId(stream, id, wall); c.Some? ==> ParseId(c.value.text) == Some(c.value.id)
  {
    hide ParseId, IdText, ParseInt64, IndexOf, Wrap64;
    var c := ChooseId(stream, id, wall);
    if c.Some? && id == "*" {
      IdRoundTrip(c.value.id);
    } else if c.Some? && |id| >= 2 && id[|id| - 2] == '-' && id[|id| - 1] == '*' {
      ParsedSign(id[..IndexOf(id, '-')]);
      IdRoundTrip(c.value.id);
    }
  }

  /** Every XADD, in all three id forms, keeps the stream strictly increasing and its texts exact. */
  lemma XaddKeepsOrder(stream: seq<StreamEntry>, id: Bytes, fields: seq<(Bytes, Bytes)>, wall: int)
    requires StreamOk(stream) && fields != [] && 0 <= wall <= INT64_MAX
    ensures StreamOk(AppendEntry(stream, ChooseId(stream, id, wall), fields).0)
  {
    hide ParseId, ChooseId;
    ChosenIdParses(stream, id, wall);
  }

  /** The text an XADD answers with cannot be mistaken for one of its errors. */
  lemma AddedIsNoError(stream: seq<StreamEntry>, id: Bytes, fields: seq<(Bytes, Bytes)>, wall: int)
    requires 0 <= wall <= INT64_MAX
    ensures var r := AppendEntry(stream, ChooseId(stream, id, wall), fields).1;
      r.Added? <==> !("ERR" <= (match r case Added(t) => t case Refused(m) => m case WrongType => "ERR"))
  {
    hide ChooseId;
    ChosenIdParses(stream, id, wall);
    var r := AppendEntry(stream, ChooseId(stream, id, wall), fields).1;
    if r.Added? {
      assert IsDigit(r.id[0]);
    } else {
      assert "ERR" <= BAD_ID && "ERR" <= ZERO_ID && "ERR" <= SMALL_ID;
    }
  }
}

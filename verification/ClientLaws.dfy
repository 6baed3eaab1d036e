/** What each command means to a client, said of replies and of what can be read afterwards: strings, lists, sorted sets,
    the keyspace, waiting with a timeout, and the command table. */
module ClientLaws {
  import opened Base
  import opened Decimal
  import opened SortedSets
  import opened Keyspace
  import opened Stores
  import opened Blocking
  import opened Commands
  import opened Invariants
  import opened Sessions
  import opened CommandLoop
  import opened Laws
  import opened WriteEffects

  /** The live value at a key. */
  function ValueNow(db: Db, key: Bytes, now: int): (v: Option<Value>) {
    Seen(Find(db, key, now)).out
  }

  lemma LiveNow(db: Db, key: Bytes, now: int)
    ensures var e := Find(db, key, now); e.Some? ==> !Expired(e.value, now)
  {}

  // ---------------------------------------------------------------- the table

  function NameOf(cmd: Cmd): (name: Bytes) {
    match cmd
    case SET => "SET" case MSET => "MSET" case GET => "GET" case INCR => "INCR" case RPUSH => "RPUSH" case LPUSH => "LPUSH"
    case LLEN => "LLEN" case LPOP => "LPOP" case RPOP => "RPOP" case LRANGE => "LRANGE" case BLPOP => "BLPOP"
    case TYPE => "TYPE" case KEYS => "KEYS" case XADD => "XADD" case ZADD => "ZADD" case ZRANK => "ZRANK"
    case ZRANGE => "ZRANGE" case ZCARD => "ZCARD" case ZSCORE => "ZSCORE" case ZREM => "ZREM" case GEOADD => "GEOADD"
    case XRANGE => "XRANGE" case XREAD => "XREAD"
  }

  /** A name is in the table exactly when it is one of these, and then it runs the command of that name. */
  lemma CommandTable(name: Bytes)
    ensures Lookup(name).Some? <==> exists cmd :: name == NameOf(cmd)
    ensures Lookup(name).Some? ==> name == NameOf(Lookup(name).value)
  {
    if cmd :| name == NameOf(cmd) {
      InTable(cmd);
    }
    if Lookup(name).Some? { OwnName(name); }
  }

  lemma InTable(cmd: Cmd)
    ensures Lookup(NameOf(cmd)).Some?
  {}

  predicate Early(cmd: Cmd) {
    cmd.SET? || cmd.MSET? || cmd.GET? || cmd.INCR? || cmd.RPUSH? || cmd.LPUSH? || cmd.LLEN? || cmd.LPOP? || cmd.RPOP?
  }

  predicate Middle(cmd: Cmd) {
    cmd.LRANGE? || cmd.BLPOP? || cmd.TYPE? || cmd.KEYS? || cmd.XADD? || cmd.ZADD? || cmd.ZRANK?
  }

  lemma OwnName(name: Bytes)
    requires Lookup(name).Some?
    ensures name == NameOf(Lookup(name).value)
  {
    hide Lookup, NameOf;
    var cmd := Lookup(name).value;
    if Early(cmd) {
      EarlyName(name, cmd);
    } else if Middle(cmd) {
      MiddleName(name, cmd);
    } else {
      LateName(name, cmd);
    }
  }

  lemma EarlyName(name: Bytes, cmd: Cmd)
    requires Lookup(name) == Some(cmd) && Early(cmd)
    ensures name == NameOf(cmd)
  {}

  lemma MiddleName(name: Bytes, cmd: Cmd)
    requires Lookup(name) == Some(cmd) && Middle(cmd)
    ensures name == NameOf(cmd)
  {}

  lemma LateName(name: Bytes, cmd: Cmd)
    requires Lookup(name) == Some(cmd) && !Early(cmd) && !Middle(cmd)
    ensures name == NameOf(cmd)
  {}

  /** The least number of words of each command. */
  lemma Arities()
    ensures MinArgs(GET) == MinArgs(INCR) == MinArgs(LLEN) == MinArgs(LPOP) == MinArgs(RPOP) == MinArgs(TYPE)
         == MinArgs(KEYS) == MinArgs(ZCARD) == 2
    ensures MinArgs(SET) == MinArgs(MSET) == MinArgs(RPUSH) == MinArgs(LPUSH) == MinArgs(BLPOP) == MinArgs(ZRANK)
         == MinArgs(ZSCORE) == MinArgs(ZREM) == 3
    ensures MinArgs(LRANGE) == MinArgs(XADD) == MinArgs(ZADD) == MinArgs(ZRANGE) == MinArgs(XRANGE) == MinArgs(XREAD) == 4
    ensures MinArgs(GEOADD) == 5
  {}

  /** A name that is not in the table, or with too few words behind it, is answered with an error and does nothing. */
  lemma BadCallsDoNothing(env: Env, c: Clock, live: bool, core: Core, fd: int, name: Bytes, args: seq<Bytes>)
    requires Lookup(name).None? || |args| < MinArgs(Lookup(name).value)
    ensures var o := ExecNamed(env, c, live, core, fd, name, args);
      o.core == core && o.sends == [] && o.reply.Some? && o.reply.value.Error?
  {
    hide Lookup;
  }

  /** The names that are logged: of the table, the commands that create or shrink; and DEL, which the table lacks. */
  lemma LoggedNames(name: Bytes)
    ensures IsWriteName(name) <==>
      name == "DEL" || (Lookup(name).Some? && (Creates(Lookup(name).value) || Shrinks(Lookup(name).value)))
  {}

  /** The transaction words. */
  lemma TransactionWords(name: Bytes)
    ensures VerbOf(name) != Data <==> name in ["MULTI", "EXEC", "DISCARD", "WATCH", "UNWATCH"]
    ensures VerbOf("MULTI") == Multi && VerbOf("EXEC") == Exec_ && VerbOf("DISCARD") == Discard
    ensures VerbOf("WATCH") == Watch && VerbOf("UNWATCH") == Unwatch
  {}

  // ---------------------------------------------------------------- from the handler to the reply

  /** A read answers from the live value. */
  lemma ReadIs(env: Env, c: Clock, live: bool, core: Core, fd: int, cmd: Cmd, args: seq<Bytes>)
    requires IsRead(cmd) && |args| >= MinArgs(cmd) && (cmd.LRANGE? || cmd.ZRANGE? ==> !BadBounds(args))
    ensures Exec(env, c, live, core, fd, cmd, args).reply
         == Some(ReadReply(env, cmd, ValueNow(core.db, args[1], c.now), args))
  {
    hide ReadReply, Find, GeoRefused, Put, BadBounds;
  }

  lemma SetIs(env: Env, c: Clock, live: bool, core: Core, fd: int, args: seq<Bytes>)
    requires |args| >= 3
    ensures Exec(env, c, live, core, fd, SET, args)
         == Perform(core, args[1], ActSet(c, Find(core.db, args[1], c.now), core.wait, args))
  {
    hide ActSet, Find, GeoRefused, Perform;
  }

  lemma PopIs(env: Env, c: Clock, live: bool, core: Core, fd: int, args: seq<Bytes>, left: bool)
    requires |args| >= 2
    ensures Exec(env, c, live, core, fd, PopCmd(left), args)
         == Perform(core, args[1], ActPop(Find(core.db, args[1], c.now), core.wait, args, left))
  {
    hide ActPop, Find, GeoRefused, Perform;
  }

  lemma ZaddIs(env: Env, c: Clock, live: bool, core: Core, fd: int, args: seq<Bytes>)
    requires |args| >= 4
    ensures Exec(env, c, live, core, fd, ZADD, args)
         == Perform(core, args[1], ActZadd(env, Find(core.db, args[1], c.now), core.wait, args))
  {
    hide ActZadd, Find, GeoRefused, Perform;
  }

  // ---------------------------------------------------------------- strings

  /** The options of SET, one more word at a time. A word that is not EX or PX changes nothing; EX or PX at the end is a
      syntax error; followed by a number it sets the time to live, in seconds or milliseconds, over any before it. */
  lemma {:induction false} OptionsGrow(args: seq<Bytes>, i: nat, ttl: Option<nat>, word: Bytes, number: Bytes)
    requires i <= |args| && ScanOptions(args, i, ttl).TtlIs?
    ensures
      var seconds, millis := Spells(word, "EX"), Spells(word, "PX");
      (!seconds && !millis ==> ScanOptions(args + [word], i, ttl) == ScanOptions(args, i, ttl)) &&
      (seconds || millis ==>
         ScanOptions(args + [word], i, ttl) == TtlError(SYNTAX) &&
         ScanOptions(args + [word, number], i, ttl)
           == match ParseUInt64(number)
              case None => TtlError(NOT_AN_INTEGER)
              case Some(n) => TtlIs(Some(if seconds then 1000 * n % UINT64_SIZE else n)))
    decreases |args| - i
  {
    hide ToUpper, ParseUInt64, Spells;
    SpellsIs(word, "EX");
    SpellsIs(word, "PX");
    var one, two := args + [word], args + [word, number];
    if i < |args| {
      assert one[i] == args[i] && two[i] == args[i];
      var option := ToUpper(args[i]);
      if option == "EX" || option == "PX" {
        assert i + 1 < |args| && one[i + 1] == args[i + 1] && two[i + 1] == args[i + 1];
        var n := ParseUInt64(args[i + 1]).value;
        OptionsGrow(args, i + 2, Some(if option == "EX" then n * 1000 % UINT64_SIZE else n), word, number);
      } else {
        OptionsGrow(args, i + 1, ttl, word, number);
      }
    } else {
      OptionsEnd(args, ttl, word, number);
    }
  }

  lemma OptionsEnd(args: seq<Bytes>, ttl: Option<nat>, word: Bytes, number: Bytes)
    ensures
      var i, option, n := |args|, ToUpper(word), ParseUInt64(number);
      (option != "EX" && option != "PX" ==> ScanOptions(args + [word], i, ttl) == TtlIs(ttl)) &&
      (option == "EX" || option == "PX" ==> ScanOptions(args + [word], i, ttl) == TtlError(SYNTAX)) &&
      (option == "EX" || option == "PX" ==>
         ScanOptions(args + [word, number], i, ttl)
           == if n.None? then TtlError(NOT_AN_INTEGER)
              else TtlIs(Some(if option == "EX" then n.value * 1000 % UINT64_SIZE else n.value)))
  {
    hide ToUpper, ParseUInt64;
    var i, one, two := |args|, args + [word], args + [word, number];
    assert one[i] == word && two[i] == word && two[i + 1] == number;
    assert "EX"[0] == 'E' && "PX"[0] == 'P';
  }

  /** GET answers the live string. */
  lemma GetMeans(env: Env, c: Clock, live: bool, core: Core, fd: int, key: Bytes)
    ensures var v := ValueNow(core.db, key, c.now);
      Exec(env, c, live, core, fd, GET, ["GET", key]).reply
        == Some(if v.Some? && v.value.Str? then Bulk(v.value.text) else NullBulk)
  {
    hide Exec, Find;
    ReadIs(env, c, live, core, fd, GET, ["GET", key]);
  }

  /** SET is accepted exactly when its options are well-formed and the live value is absent or a string; then GET answers
      the value until its time to live is over, and nothing from then on. */
  lemma SetMeans(env: Env, c: Clock, live: bool, core: Core, fd: int, args: seq<Bytes>, d: Clock)
    requires |args| >= 3 && c.now <= d.now
    ensures
      var o := Exec(env, c, live, core, fd, SET, args);
      var v := ValueNow(core.db, args[1], c.now);
      var options := ScanOptions(args, 3, None);
      (o.reply == Some(Ok) <==> options.TtlIs? && (v.None? || v.value.Str?)) &&
      (o.reply == Some(Ok) ==>
         Exec(env, d, live, o.core, fd, GET, ["GET", args[1]]).reply
           == Some(if options.ttl.None? || d.now < c.now + options.ttl.value then Bulk(args[2]) else NullBulk))
  {
    hide ScanOptions, Touch, Find, SetIf, Exec, Put;
    SetReply(env, c, live, core, fd, args);
    var o := Exec(env, c, live, core, fd, SET, args);
    if o.reply == Some(Ok) {
      SetThenRead(core.db, args[1], args[2], ScanOptions(args, 3, None).ttl, c.now, d.now);
    }
    GetMeans(env, d, live, o.core, fd, args[1]);
  }

  lemma SetReply(env: Env, c: Clock, live: bool, core: Core, fd: int, args: seq<Bytes>)
    requires |args| >= 3
    ensures
      var o := Exec(env, c, live, core, fd, SET, args);
      var v, options := ValueNow(core.db, args[1], c.now), ScanOptions(args, 3, None);
      (o.reply == Some(Ok) <==> options.TtlIs? && (v.None? || v.value.Str?)) &&
      (o.reply == Some(Ok) ==>
         var e := SetIf(Find(core.db, args[1], c.now), args[2], Deadline(c.now, options.ttl));
         e.out && o.core.db == Apply(core.db, args[1], e))
  {
    hide ScanOptions, Put, Find, Exec;
    SetIs(env, c, live, core, fd, args);
  }

  /** INCR answers one more than the number at the key, where nothing counts as 0, and that is what the text there then
      says; without a number below the largest there it answers an error and leaves the value. */
  lemma IncrMeans(env: Env, c: Clock, live: bool, core: Core, fd: int, args: seq<Bytes>)
    requires |args| >= 2
    ensures
      var o := Exec(env, c, live, core, fd, INCR, args);
      var v := ValueNow(core.db, args[1], c.now);
      var n := if v.None? then Some(0) else if v.value.Str? then ParseInt64(v.value.text) else None;
      var w := ValueNow(o.core.db, args[1], c.now);
      if n.Some? && n.value < INT64_MAX then
        o.reply == Some(Integer(n.value + 1)) && w.Some? && w.value.Str? && ParseInt64(w.value.text) == Some(n.value + 1)
      else o.reply == Some(Error(NOT_AN_INTEGER)) && w == v
  {
    hide ParseInt64, ToText, Touch, Find;
    LiveNow(core.db, args[1], c.now);
    var cur := Find(core.db, args[1], c.now);
    OneIsOne();
    if cur.Some? && cur.value.value.Str? && ParseInt64(cur.value.value.text).Some? {
      var n := ParseInt64(cur.value.value.text).value;
      if n < INT64_MAX { ParseToText(n + 1); }
    }
    IncrFind(core, args[1], c.now);
  }

  /** INCR leaves the time at which the value dies: later the key reads something exactly when it would have without the
      INCR, or when INCR created it. */
  lemma IncrKeepsExpiry(env: Env, c: Clock, live: bool, core: Core, fd: int, args: seq<Bytes>, t: int)
    requires |args| >= 2 && c.now <= t
    ensures var o := Exec(env, c, live, core, fd, INCR, args);
      ValueNow(o.core.db, args[1], t).Some? <==>
        ValueNow(core.db, args[1], c.now).None? || ValueNow(core.db, args[1], t).Some?
  {
    hide ParseInt64, ToText, Touch;
  }

  lemma OneIsOne()
    ensures ParseInt64("1") == Some(1)
  {
    ParseToText(1);
    assert ToText(1) == "1";
  }

  lemma IncrFind(core: Core, key: Bytes, now: int)
    ensures var e := IncrIf(Find(core.db, key, now));
      Find(Put(core.db, key, e.entry, e.touches), key, now) == e.entry
  {
    hide ParseInt64, ToText, Touch;
  }

  /** The last word for `key` among the pairs from `i` on. */
  function LastGiven(args: seq<Bytes>, i: nat, key: Bytes): (r: Option<Bytes>)
    decreases |args| - i
  {
    if i + 1 >= |args| then None
    else
      var later := LastGiven(args, i + 2, key);
      if later.Some? then later else if args[i] == key then Some(args[i + 1]) else None
  }

  lemma {:induction false} SetPairsGives(db: Db, args: seq<Bytes>, i: nat, key: Bytes, now: int)
    requires i <= |args| && (|args| - i) % 2 == 0
    ensures var g := LastGiven(args, i, key);
      ValueNow(SetPairs(db, args, i), key, now) == if g.Some? then Some(Str(g.value)) else ValueNow(db, key, now)
    decreases |args| - i
  {
    if i < |args| {
      SetPairsGives(Apply(db, args[i], SetAny(args[i + 1], None)), args, i + 2, key, now);
    }
  }

  /** MSET gives every named key the last value named for it, for good, and leaves what every other key reads at any time
      alone; or it is refused as a whole. */
  lemma MsetMeans(env: Env, c: Clock, live: bool, core: Core, fd: int, args: seq<Bytes>, key: Bytes, t: int)
    requires |args| >= 3
    ensures
      var o := Exec(env, c, live, core, fd, MSET, args);
      var g := LastGiven(args, 1, key);
      if o.reply == Some(Ok) then
        ValueNow(o.core.db, key, t) == if g.Some? then Some(Str(g.value)) else ValueNow(core.db, key, t)
      else o.core == core
  {
    hide SetPairs, AllTakeStrings, Find, LastGiven;
    if (|args| - 1) % 2 == 0 { SetPairsGives(core.db, args, 1, key, t); }
  }

  // ---------------------------------------------------------------- lists

  function PopCmd(left: bool): (cmd: Cmd) {
    if left then LPOP else RPOP
  }

  lemma {:induction false} ReversedAt(s: seq<Bytes>, i: nat)
    requires i < |s|
    ensures |Reversed(s)| == |s| && Reversed(s)[i] == s[|s| - 1 - i]
    decreases |s|
  {
    var init := s[..|s| - 1];
    if init != [] { ReversedAt(init, if i > 0 then i - 1 else 0); }
  }

  /** LPOP answers the first element and RPOP the last, which leaves the list. */
  lemma PopOne(env: Env, c: Clock, live: bool, core: Core, fd: int, key: Bytes, items: seq<Bytes>, left: bool)
    requires ValueNow(core.db, key, c.now) == Some(Lst(items)) && items != []
    ensures
      var o := Exec(env, c, live, core, fd, PopCmd(left), ["POP", key]);
      var n := |items|;
      o.reply == Some(Bulk(if left then items[0] else items[n - 1])) &&
      ValueNow(o.core.db, key, c.now) == Some(Lst(if left then items[1..] else items[..n - 1]))
  {
    hide Touch, Find, Exec, Put, Reversed;
    PopIs(env, c, live, core, fd, ["POP", key], left);
    LiveNow(core.db, key, c.now);
    if !left { ReversedAt(items[|items| - 1..], 0); }
    PopFind(core, key, 1, left, c.now);
  }

  lemma TakenAt(cur: Option<Entry>, count: int, left: bool, items: seq<Bytes>, i: nat)
    requires cur.Some? && cur.value.value == Lst(items) && count > 0 && i < Min(count, |items|)
    ensures
      var e, n, m := Pop(cur, count, left), |items|, Min(count, |items|);
      |e.out| == m && e.out[i] == (if left then items[i] else items[n - 1 - i]) && e.entry.Some? &&
      e.entry.value.value == Lst(if left then items[m..] else items[..n - m])
  {
    hide Reversed;
    var m := Min(count, |items|);
    if !left { ReversedAt(items[|items| - m..], i); }
  }

  lemma PopFind(core: Core, key: Bytes, count: int, left: bool, now: int)
    ensures var e := Pop(Find(core.db, key, now), count, left);
      Find(Put(core.db, key, e.entry, e.touches), key, now) == e.entry
  {
    hide Touch, Reversed;
  }

  /** With a count, LPOP answers that many elements from the front and RPOP from the back, in the order they are taken; the
      rest stays in order. */
  lemma PopMany(env: Env, c: Clock, live: bool, core: Core, fd: int, args: seq<Bytes>, items: seq<Bytes>, left: bool,
                i: nat)
    requires |args| >= 3 && ParseInt64(args[2]).Some? && ParseInt64(args[2]).value > 0
    requires ValueNow(core.db, args[1], c.now) == Some(Lst(items)) && i < Min(ParseInt64(args[2]).value, |items|)
    ensures
      var o := Exec(env, c, live, core, fd, PopCmd(left), args);
      var n, m := |items|, Min(ParseInt64(args[2]).value, |items|);
      o.reply.Some? && o.reply.value.Array? && |o.reply.value.items| == m &&
      o.reply.value.items[i] == (if left then items[i] else items[n - 1 - i]) &&
      ValueNow(o.core.db, args[1], c.now) == Some(Lst(if left then items[m..] else items[..n - m]))
  {
    hide Touch, Find, ParseInt64, Exec, Put, Pop;
    PopIs(env, c, live, core, fd, args, left);
    var count := ParseInt64(args[2]).value;
    TakenAt(Find(core.db, args[1], c.now), count, left, items, i);
    PopFind(core, args[1], count, left, c.now);
  }

  /** A push with nobody waiting: RPUSH puts its words behind the list in order, LPUSH in front of it, the last one first;
      the answer is the new length. */
  lemma PushMeans(env: Env, c: Clock, live: bool, core: Core, fd: int, args: seq<Bytes>, left: bool)
    requires |args| >= 3 && (!live || Queue(core.wait, args[1]) == [])
    requires var v := ValueNow(core.db, args[1], c.now); v.None? || v.value.Lst?
    ensures
      var before := ItemsOf(ValueNow(core.db, args[1], c.now));
      var all := if left then Reversed(args[2..]) + before else before + args[2..];
      var o := Exec(env, c, live, core, fd, if left then LPUSH else RPUSH, args);
      o.reply == Some(Integer(|all|)) && ValueNow(o.core.db, args[1], c.now) == Some(Lst(all)) && o.sends == []
  {
    hide Touch, Find, PushRest, Reversed, Queue;
    var key, cur := args[1], Find(core.db, args[1], c.now);
    LiveNow(core.db, key, c.now);
    var e := PushIf(cur, args[2], left);
    var p := Pushing(e.entry, e.touches, core.wait, [], e.out.value);
    PushAll(p, key, args[3..], left, live);
    WithOneMore(ListEntry(cur).value.items, args[2..], left);
    assert args[2..][1..] == args[3..];
    PushFind(core, key, e.entry.value, c.now);
  }

  lemma PushFind(core: Core, key: Bytes, e: Entry, now: int)
    requires !Expired(e, now)
    ensures forall items, n: nat ::
      Find(Put(core.db, key, Some(e.(value := Lst(items))), n), key, now) == Some(e.(value := Lst(items)))
  {
    hide Touch;
  }

  /** LLEN answers the number of elements. */
  lemma LlenMeans(env: Env, c: Clock, live: bool, core: Core, fd: int, key: Bytes)
    ensures Exec(env, c, live, core, fd, LLEN, ["LLEN", key]).reply
         == Some(Integer(|ItemsOf(ValueNow(core.db, key, c.now))|))
  {
    hide Exec, Find;
    ReadIs(env, c, live, core, fd, LLEN, ["LLEN", key]);
  }

  /** LRANGE answers the elements from the one `start` names to the one `stop` names. */
  lemma LrangeMeans(env: Env, c: Clock, live: bool, core: Core, fd: int, args: seq<Bytes>)
    requires |args| >= 4 && ParseInt64(args[2]).Some? && ParseInt64(args[3]).Some?
    ensures
      var items := ItemsOf(ValueNow(core.db, args[1], c.now));
      var a, b := Named(|items|, ParseInt64(args[2]).value), Named(|items|, ParseInt64(args[3]).value);
      0 <= a <= b < |items| ==>
        Exec(env, c, live, core, fd, LRANGE, args).reply == Some(Array(items[a..b + 1]))
  {
    hide ParseInt64, Exec, Find;
    ReadIs(env, c, live, core, fd, LRANGE, args);
  }

  /** BLPOP with something to pop answers the key and the first element, which leaves the list. */
  lemma BlpopTakes(env: Env, c: Clock, live: bool, core: Core, fd: int, args: seq<Bytes>, items: seq<Bytes>)
    requires |args| >= 3 && env.parse(args[2]).Some? && env.parse(args[2]).value >= 0
    requires ValueNow(core.db, args[1], c.now) == Some(Lst(items)) && items != []
    ensures
      var o := Exec(env, c, live, core, fd, BLPOP, args);
      o.reply == Some(Array([args[1], items[0]])) && o.core.wait == core.wait &&
      ValueNow(o.core.db, args[1], c.now) == Some(Lst(items[1..]))
  {
    hide Touch, Find, Block, Reversed;
    LiveNow(core.db, args[1], c.now);
    PopFind(core, args[1], 1, true, c.now);
  }

  // ---------------------------------------------------------------- waiting

  /** BLPOP with nothing to pop waits; a sweep at `t` lets it go exactly when it gave a timeout that is over by then. */
  lemma BlpopWaits(env: Env, c: Clock, core: Core, fd: int, args: seq<Bytes>, t: int)
    requires |args| >= 3 && env.parse(args[2]).Some? && env.parse(args[2]).value >= 0 && WaitingOk(core.wait)
    requires ItemsOf(ValueNow(core.db, args[1], c.now)) == []
    ensures
      var o := Exec(env, c, true, core, fd, BLPOP, args);
      var timeout := env.millis(env.parse(args[2]).value);
      o.reply == None && StillWaits(o.core.wait, args[1], core.wait.next) &&
      (StillWaits(Expire(o.core.wait, t), args[1], core.wait.next) <==> timeout == 0 || t < c.now + timeout)
  {
    hide Touch, Find, Block, Reversed, StillWaits, WaitingOk, Expire;
    WaitsUntil(core.wait, fd, args[1], ZERO, env.millis(env.parse(args[2]).value), Popper, c.now, t);
  }

  /** A blocking XREAD that waits does so on its key; a sweep at `t` lets it go exactly when it gave a timeout that is over
      by then. */
  lemma XreadWaits(env: Env, c: Clock, core: Core, fd: int, args: seq<Bytes>, t: int)
    requires |args| >= 4 && WaitingOk(core.wait) && Exec(env, c, true, core, fd, XREAD, args).reply == None
    ensures
      var o := Exec(env, c, true, core, fd, XREAD, args);
      var r := ParseRead(args);
      r.ReadOk? && r.block.Some? && StillWaits(o.core.wait, r.keys[0], core.wait.next) &&
      (StillWaits(Expire(o.core.wait, t), r.keys[0], core.wait.next) <==>
         r.block.value == 0 || t < c.now + r.block.value)
  {
    hide ParseRead, ReadAll, Visit, AnyData, Block, StillWaits, WaitingOk, Expire, WaiterId, Recorded;
    var r := ParseRead(args);
    if r.ReadOk? && r.block.Some? {
      var db := Visit(core.db, r.keys, c.now);
      WaitsUntil(core.wait, fd, r.keys[0], WaiterId(StreamAt(db, r.keys[0], c.now), r.ids[0]), r.block.value,
                 Reader(Recorded(r.ids[0])), c.now, t);
    }
  }

  /** The arguments of a blocking XREAD: the timeout in milliseconds, one key, one id. */
  lemma BlockArgs(word: Bytes, timeout: Bytes, streams: Bytes, key: Bytes, id: Bytes)
    requires Spells(word, "BLOCK") && Spells(streams, "STREAMS")
    ensures ParseRead(["XREAD", word, timeout, streams, key, id])
         == match ParseInt64(timeout) case None => ReadBad(NOT_AN_INTEGER) case Some(n) => ReadOk(Some(n), [key], [id])
  {
    hide ToUpper, ParseInt64, Spells;
    SpellsIs(word, "BLOCK");
    SpellsIs(streams, "STREAMS");
    var args := ["XREAD", word, timeout, streams, key, id];
    assert FindStreams(args, 3) == 3;
    assert args[4..5] == [key] && args[5..] == [id];
  }

  // ---------------------------------------------------------------- sorted sets

  function ScoresNow(db: Db, key: Bytes, now: int): (r: map<Bytes, Score>) {
    Scores(ZsetOf(ValueNow(db, key, now)))
  }

  predicate TakesZset(db: Db, key: Bytes, now: int) {
    var v := ValueNow(db, key, now); v.None? || v.value.Zst?
  }

  predicate AllScores(env: Env, args: seq<Bytes>, i: nat) {
    forall j :: i <= j < |args| && EveryOther(i, j) ==> env.parse(args[j]).Some?
  }

  /** The same adds on the simple counterpart. */
  function MapAdds(env: Env, m: map<Bytes, Score>, args: seq<Bytes>, i: nat): (r: map<Bytes, Score>)
    decreases |args| - i
  {
    if i + 1 >= |args| || env.parse(args[i]).None? then m
    else MapAdds(env, m[args[i + 1] := env.parse(args[i]).value], args, i + 2)
  }

  lemma {:induction false} ZaddRestMeans(env: Env, e: Effect<int>, args: seq<Bytes>, i: nat)
    requires e.entry.Some? && e.entry.value.value.Zst? && Valid(e.entry.value.value.zset)
    requires i <= |args| && (|args| - i) % 2 == 0 && AllScores(env, args, i)
    ensures
      var before := Scores(e.entry.value.value.zset);
      var r := ZaddRest(env, e, args, i);
      r.entry.Some? && r.entry.value.value.Zst? && r.entry.value.expiry == e.entry.value.expiry &&
      Scores(r.entry.value.value.zset) == MapAdds(env, before, args, i) &&
      r.out == Integer(e.out + |MapAdds(env, before, args, i)| - |before|)
    decreases |args| - i
  {
    hide Valid, Add, Scores;
    if i < |args| {
      assert EveryOther(i, i);
      var z, score, member := e.entry.value.value.zset, env.parse(args[i]).value, args[i + 1];
      AddRefines(z, score, member);
      AddCounts(z, score, member);
      var a := Zadd(e.entry, score, member);
      assert forall j :: EveryOther(i + 2, j) ==> EveryOther(i, j);
      ZaddRestMeans(env, Effect(a.entry, e.touches + a.touches, e.out + a.out), args, i + 2);
    }
  }

  /** Adding a member makes the map one larger exactly when it was not there. */
  lemma AddCounts(z: ZSet, score: Score, member: Bytes)
    ensures |Scores(z)[member := score]| == |Scores(z)| + if member in z.index then 0 else 1
  {
    var m := Scores(z);
    assert m[member := score].Keys == m.Keys + {member};
    assert |m.Keys| == |m| && |m[member := score].Keys| == |m[member := score]|;
    assert member in m ==> m.Keys + {member} == m.Keys;
  }

  /** ZADD with complete pairs of good scores adds them to the map in order and answers how many members are new. */
  lemma ZaddMeans(env: Env, c: Clock, live: bool, core: Core, fd: int, args: seq<Bytes>)
    requires |args| >= 4 && |args| % 2 == 0 && AllScores(env, args, 2)
    requires DbOk(core.db, c.now) && TakesZset(core.db, args[1], c.now)
    ensures
      var o := Exec(env, c, live, core, fd, ZADD, args);
      var before, after := ScoresNow(core.db, args[1], c.now), ScoresNow(o.core.db, args[1], c.now);
      after == MapAdds(env, before, args, 2) && o.reply == Some(Integer(|after| - |before|))
  {
    hide Touch, Find, Valid, Add, ZaddRest, DbOk, MapAdds, Scores, AllScores, Exec, Put;
    ZaddIs(env, c, live, core, fd, args);
    var key, cur := args[1], Find(core.db, args[1], c.now);
    FindOk(core.db, key, c.now);
    LiveNow(core.db, key, c.now);
    NothingIsValid();
    FirstScores(env, args);
    var z, score := ZsetEntry(cur).value.zset, env.parse(args[2]).value;
    var a := ZaddIf(cur, score, args[3]);
    AddRefines(z, score, args[3]);
    AddCounts(z, score, args[3]);
    ZaddRestMeans(env, Effect(a.entry, a.touches, a.out.value), args, 4);
    MapAddsFirst(env, Scores(z), args);
    var e := ZaddRest(env, Effect(a.entry, a.touches, a.out.value), args, 4);
    LiveEntryFound(core.db, key, e.entry.value, e.touches, c.now);
  }

  lemma FirstScores(env: Env, args: seq<Bytes>)
    requires |args| >= 4 && AllScores(env, args, 2)
    ensures env.parse(args[2]).Some? && AllScores(env, args, 4)
  {
    assert EveryOther(2, 2);
    assert forall j :: EveryOther(4, j) ==> EveryOther(2, j);
  }

  lemma MapAddsFirst(env: Env, m: map<Bytes, Score>, args: seq<Bytes>)
    requires |args| >= 4 && env.parse(args[2]).Some?
    ensures MapAdds(env, m, args, 2) == MapAdds(env, m[args[3] := env.parse(args[2]).value], args, 4)
  {}

  lemma LiveEntryFound(db: Db, key: Bytes, e: Entry, n: nat, now: int)
    requires !Expired(e, now)
    ensures Find(Put(db, key, Some(e), n), key, now) == Some(e)
  {
    hide Touch;
  }

  /** ZREM takes the member out of the map and answers 1 exactly when it was there. */
  lemma ZremMeans(env: Env, c: Clock, live: bool, core: Core, fd: int, args: seq<Bytes>)
    requires |args| >= 3 && DbOk(core.db, c.now)
    ensures
      var o := Exec(env, c, live, core, fd, ZREM, args);
      var before := ScoresNow(core.db, args[1], c.now);
      ScoresNow(o.core.db, args[1], c.now) == before - {args[2]} &&
      o.reply == Some(Integer(if args[2] in before then 1 else 0))
  {
    hide Touch, Find, Valid, Remove, DbOk;
    var key, cur := args[1], Find(core.db, args[1], c.now);
    FindOk(core.db, key, c.now);
    LiveNow(core.db, key, c.now);
    if cur.Some? {
      if cur.value.value.Zst? { RemoveRefines(cur.value.value.zset, args[2]); }
      LiveEntryFound(core.db, key, Zrem(cur, args[2]).entry.value, 1, c.now);
    } else {
      NothingFound(core.db, key, 1, c.now);
    }
  }

  lemma NothingFound(db: Db, key: Bytes, n: nat, now: int)
    ensures Find(Put(db, key, None, n), key, now) == None
  {
    hide Touch;
  }

  /** GEOADD gives the member the score of its latitude and longitude, which come in the other order, and answers 1 exactly
      when it is new. */
  lemma GeoaddMeans(env: Env, c: Clock, live: bool, core: Core, fd: int, args: seq<Bytes>)
    requires |args| >= 5 && DbOk(core.db, c.now) && !GeoRefused(core.db, args[1], c.now)
    requires env.parse(args[2]).Some? && env.parse(args[3]).Some?
    ensures
      var longitude, latitude := env.parse(args[2]).value, env.parse(args[3]).value;
      var o := Exec(env, c, live, core, fd, GEOADD, args);
      var before := ScoresNow(core.db, args[1], c.now);
      match env.geo(latitude, longitude)
      case None => o.reply == Some(Error(BAD_PAIR)) && o.core == core
      case Some(score) =>
        ScoresNow(o.core.db, args[1], c.now) == before[args[4] := score] &&
        o.reply == Some(Integer(if args[4] in before then 0 else 1))
  {
    hide Touch, Find, Valid, Add, DbOk, GeoRefused;
    var key, cur := args[1], Find(core.db, args[1], c.now);
    FindOk(core.db, key, c.now);
    LiveNow(core.db, key, c.now);
    NothingIsValid();
    var score := env.geo(env.parse(args[3]).value, env.parse(args[2]).value);
    if score.Some? {
      var z := ZsetEntry(cur).value.zset;
      AddRefines(z, score.value, args[4]);
      LiveEntryFound(core.db, key, Zadd(cur, score.value, args[4]).entry.value, 1, c.now);
    }
  }

  /** ZSCORE answers the text of the member's score. */
  lemma ZscoreMeans(env: Env, c: Clock, live: bool, core: Core, fd: int, key: Bytes, member: Bytes)
    ensures var m := ScoresNow(core.db, key, c.now);
      Exec(env, c, live, core, fd, ZSCORE, ["ZSCORE", key, member]).reply
        == Some(if member in m then Bulk(env.format(m[member])) else NullBulk)
  {
    hide Exec, Find;
    ReadIs(env, c, live, core, fd, ZSCORE, ["ZSCORE", key, member]);
  }

  /** ZRANK answers the number of members before it. */
  lemma ZrankMeans(env: Env, c: Clock, live: bool, core: Core, fd: int, key: Bytes, member: Bytes)
    requires DbOk(core.db, c.now)
    ensures var m := ScoresNow(core.db, key, c.now);
      Exec(env, c, live, core, fd, ZRANK, ["ZRANK", key, member]).reply
        == Some(if member in m then Integer(RankOf(m, member)) else NullBulk)
  {
    hide Exec, Find, Valid, DbOk, RankOf, Below;
    ReadIs(env, c, live, core, fd, ZRANK, ["ZRANK", key, member]);
    ZsetIsValid(core.db, key, c.now);
    var z := ZsetOf(ValueNow(core.db, key, c.now));
    if member in z.index { RankCounts(z, member); }
  }

  /** ZCARD answers the size of the map. */
  lemma ZcardMeans(env: Env, c: Clock, live: bool, core: Core, fd: int, key: Bytes)
    requires DbOk(core.db, c.now)
    ensures Exec(env, c, live, core, fd, ZCARD, ["ZCARD", key]).reply == Some(Integer(|ScoresNow(core.db, key, c.now)|))
  {
    hide Exec, Find, Valid, DbOk;
    ReadIs(env, c, live, core, fd, ZCARD, ["ZCARD", key]);
    ZsetIsValid(core.db, key, c.now);
    Cardinality(ZsetOf(ValueNow(core.db, key, c.now)));
  }

  lemma ZsetIsValid(db: Db, key: Bytes, now: int)
    requires DbOk(db, now)
    ensures Valid(ZsetOf(ValueNow(db, key, now)))
  {
    hide Valid;
    FindOk(db, key, now);
    NothingIsValid();
  }

  /** ZRANGE lists members by rank, from the resolved start on. */
  lemma ZrangeMeans(env: Env, c: Clock, live: bool, core: Core, fd: int, args: seq<Bytes>)
    requires |args| >= 4 && ParseInt64(args[2]).Some? && ParseInt64(args[3]).Some? && DbOk(core.db, c.now)
    ensures
      var o := Exec(env, c, live, core, fd, ZRANGE, args);
      o.reply.Some? && o.reply.value.Array? &&
      ListedByRank(ScoresNow(core.db, args[1], c.now), ParseInt64(args[2]).value, ParseInt64(args[3]).value,
                   o.reply.value.items)
  {
    hide Find, DbOk, ListedByRank, ParseInt64, Scores, RangeBounds, Exec;
    ReadIs(env, c, live, core, fd, ZRANGE, args);
    var start, stop := ParseInt64(args[2]).value, ParseInt64(args[3]).value;
    RangeListsByRank(core.db, args[1], c.now, start, stop);
    MembersSlice(ZsetOf(ValueNow(core.db, args[1], c.now)).entries, start, stop);
  }

  // ---------------------------------------------------------------- the keyspace

  /** KEYS answers exactly the keys with a live entry. */
  lemma KeysMeans(env: Env, c: Clock, live: bool, core: Core, fd: int, args: seq<Bytes>)
    requires |args| >= 2
    ensures var o := Exec(env, c, live, core, fd, KEYS, args);
      o.reply.Some? && o.reply.value.KeySet? &&
      forall k :: k in o.reply.value.keys <==> ValueNow(core.db, k, c.now).Some?
  {}

  /** TYPE answers the kind of the live value. */
  lemma TypeMeans(env: Env, c: Clock, live: bool, core: Core, fd: int, key: Bytes)
    ensures
      var v := ValueNow(core.db, key, c.now);
      var r := Exec(env, c, live, core, fd, TYPE, ["TYPE", key]).reply;
      (v.None? ==> r == Some(Simple("none"))) &&
      (v.Some? && v.value.Str? ==> r == Some(Simple("string"))) &&
      (v.Some? && v.value.Lst? ==> r == Some(Simple("list"))) &&
      (v.Some? && v.value.Strm? ==> r == Some(Simple("stream"))) &&
      (v.Some? && v.value.Zst? ==> r == Some(Simple("zset")))
  {
    hide Exec, Find;
    ReadIs(env, c, live, core, fd, TYPE, ["TYPE", key]);
  }
}

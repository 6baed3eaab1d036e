/** Sorted sets (`SortedSet` in src/store/store.hpp): an ordered set of (score, member) pairs next to an index
    from each member to its node. A node of the ordered set is identified by the pair it holds.

    A score stands for a double by its rank among the ordered non-NaN doubles (0.0 has rank 0), so scores are
    compared but never computed with. */
module SortedSets {
  import opened Base

  type Score = int
  type Node = (Score, Bytes)

  datatype ZSet = ZSet(entries: seq<Node>, index: map<Bytes, Node>)

  const EMPTY: ZSet := ZSet([], map[])

  // ---------------------------------------------------------------- the order of the nodes

  /** `std::string` order: lexicographic. */
  predicate BytesLess(a: Bytes, b: Bytes) {
    if b == [] then false
    else if a == [] then true
    else a[0] < b[0] || (a[0] == b[0] && BytesLess(a[1..], b[1..]))
  }

  predicate NodeLess(a: Node, b: Node) {
    a.0 < b.0 || (a.0 == b.0 && BytesLess(a.1, b.1))
  }

  lemma {:induction false} BytesLessTrans(a: Bytes, b: Bytes, c: Bytes)
    requires BytesLess(a, b) && BytesLess(b, c)
    ensures BytesLess(a, c)
    decreases |a|
  {
    if a != [] && a[0] == b[0] == c[0] {
      BytesLessTrans(a[1..], b[1..], c[1..]);
    }
  }

  lemma {:induction false} BytesLessTotal(a: Bytes, b: Bytes)
    ensures BytesLess(a, b) || a == b || BytesLess(b, a)
    ensures !(BytesLess(a, b) && BytesLess(b, a)) && !BytesLess(a, a)
    decreases |a|
  {
    if a != [] {
      if b != [] && a[0] == b[0] {
        BytesLessTotal(a[1..], b[1..]);
        assert a == [a[0]] + a[1..] && b == [b[0]] + b[1..];
      }
      BytesLessTotal(a[1..], a[1..]);
    }
  }

  lemma NodeLessTrans(a: Node, b: Node, c: Node)
    requires NodeLess(a, b) && NodeLess(b, c)
    ensures NodeLess(a, c)
  {
    if a.0 == b.0 == c.0 {
      BytesLessTrans(a.1, b.1, c.1);
    }
  }

  lemma NodeLessTotal(a: Node, b: Node)
    ensures NodeLess(a, b) || a == b || NodeLess(b, a)
    ensures !(NodeLess(a, b) && NodeLess(b, a)) && !NodeLess(a, a)
  {
    BytesLessTotal(a.1, b.1);
    BytesLessTotal(a.1, a.1);
  }

  /** The iteration order of `std::set`. */
  predicate Ascending(es: seq<Node>) {
    forall i, j :: 0 <= i < j < |es| ==> NodeLess(es[i], es[j])
  }

  // ---------------------------------------------------------------- the ordered set

  /** Where `x` belongs: the number of nodes below it. */
  function Below(es: seq<Node>, x: Node): (n: nat)
    ensures n <= |es|
    ensures forall i :: 0 <= i < n ==> NodeLess(es[i], x)
    ensures n < |es| ==> !NodeLess(es[n], x)
  {
    if es == [] || !NodeLess(es[0], x) then 0 else 1 + Below(es[1..], x)
  }

  function Insert(es: seq<Node>, x: Node): (r: seq<Node>) {
    var n := Below(es, x);
    es[..n] + [x] + es[n..]
  }

  function Erase(es: seq<Node>, x: Node): (r: seq<Node>) {
    var n := Below(es, x);
    if n < |es| && es[n] == x then es[..n] + es[n + 1..] else es
  }

  /** `add`: an existing member's node is extracted, given the new score and inserted again. */
  function Add(z: ZSet, score: Score, member: Bytes): (r: ZSet) {
    var es := if member in z.index then Erase(z.entries, z.index[member]) else z.entries;
    ZSet(Insert(es, (score, member)), z.index[member := (score, member)])
  }

  function Remove(z: ZSet, member: Bytes): (r: ZSet) {
    if member in z.index then ZSet(Erase(z.entries, z.index[member]), z.index - {member}) else z
  }

  // ---------------------------------------------------------------- the invariant

  /** The ordered set and the index hold the same nodes, one per member. */
  predicate Valid(z: ZSet) {
    Ascending(z.entries) &&
    (forall m :: m in z.index ==> z.index[m].1 == m && z.index[m] in z.entries) &&
    (forall x :: x in z.entries ==> x.1 in z.index && z.index[x.1] == x)
  }

  /** The simple counterpart: a map from member to score. */
  function Scores(z: ZSet): (r: map<Bytes, Score>) {
    map m | m in z.index :: z.index[m].0
  }

  lemma BelowMember(es: seq<Node>, i: nat)
    requires Ascending(es) && i < |es|
    ensures Below(es, es[i]) == i
  {
    var n := Below(es, es[i]);
    NodeLessTotal(es[i], es[i]);
    assert forall k :: 0 <= k < i ==> NodeLess(es[k], es[i]);
  }

  lemma InsertAscending(es: seq<Node>, x: Node)
    requires Ascending(es) && x !in es
    ensures Ascending(Insert(es, x))
    ensures forall y :: y in Insert(es, x) <==> y in es || y == x
  {
    hide NodeLess;
    var n, r := Below(es, x), Insert(es, x);
    forall i | n <= i < |es|
      ensures NodeLess(x, es[i])
    {
      NodeLessTotal(es[n], x);
      assert es[n] in es && NodeLess(x, es[n]);
      if n < i { NodeLessTrans(x, es[n], es[i]); }
    }
    InsertMembers(es, x, n);
  }

  lemma InsertMembers(es: seq<Node>, x: Node, n: nat)
    requires n <= |es|
    ensures forall y :: y in es[..n] + [x] + es[n..] <==> y in es || y == x
  {
    assert es == es[..n] + es[n..];
  }

  lemma EraseAscending(es: seq<Node>, x: Node)
    requires Ascending(es) && x in es
    ensures Ascending(Erase(es, x)) && |Erase(es, x)| == |es| - 1
    ensures forall y :: y in Erase(es, x) <==> y in es && y != x
  {
    hide NodeLess;
    var i :| 0 <= i < |es| && es[i] == x;
    BelowMember(es, i);
    forall k | 0 <= k < |es| && k != i
      ensures es[k] != x
    {
      NodeLessTotal(x, x);
      assert NodeLess(if k < i then es[k] else x, if k < i then x else es[k]);
    }
    assert es == es[..i] + [x] + es[i + 1..];
  }

  /** `add` keeps the two containers in step and is a map update. */
  lemma AddRefines(z: ZSet, score: Score, member: Bytes)
    requires Valid(z)
    ensures Valid(Add(z, score, member))
    ensures Scores(Add(z, score, member)) == Scores(z)[member := score]
  {
    hide NodeLess, Insert, Erase, Ascending;
    var x := (score, member);
    var es := z.entries;
    if member in z.index {
      EraseAscending(z.entries, z.index[member]);
      es := Erase(z.entries, z.index[member]);
    }
    InsertAscending(es, x);
  }

  /** `remove` keeps the two containers in step and is a map removal. */
  lemma RemoveRefines(z: ZSet, member: Bytes)
    requires Valid(z)
    ensures Valid(Remove(z, member))
    ensures Scores(Remove(z, member)) == Scores(z) - {member}
  {
    hide NodeLess, Erase, Ascending;
    if member in z.index {
      EraseAscending(z.entries, z.index[member]);
    }
  }

  // ---------------------------------------------------------------- the bijection

  /** Names first differ at byte `i`, where `a` has the smaller byte or has ended. */
  predicate SmallerAt(a: Bytes, b: Bytes, i: nat) {
    i <= |a| && i < |b| && a[..i] == b[..i] && (i == |a| || a[i] < b[i])
  }

  /** The order of names, written out. */
  ghost predicate NameBefore(a: Bytes, b: Bytes) {
    exists i: nat :: SmallerAt(a, b, i)
  }

  lemma {:induction false} BytesLessIs(a: Bytes, b: Bytes)
    ensures BytesLess(a, b) <==> NameBefore(a, b)
    decreases |a|
  {
    if a != [] && b != [] {
      BytesLessIs(a[1..], b[1..]);
      if a[0] == b[0] && BytesLess(a[1..], b[1..]) {
        var i: nat :| SmallerAt(a[1..], b[1..], i);
        assert a[..i + 1] == [a[0]] + a[1..][..i] && b[..i + 1] == [b[0]] + b[1..][..i];
        assert SmallerAt(a, b, i + 1);
      }
      if a[0] < b[0] {
        assert SmallerAt(a, b, 0);
      }
      if NameBefore(a, b) {
        var i: nat :| SmallerAt(a, b, i);
        if i > 0 {
          assert a[0] == a[..i][0] == b[..i][0] == b[0];
          assert a[1..][..i - 1] == a[..i][1..] && b[1..][..i - 1] == b[..i][1..];
          assert SmallerAt(a[1..], b[1..], i - 1);
        }
      }
    } else if b != [] {
      assert SmallerAt(a, b, 0);
    }
  }

  /** The nodes stand by ascending score, and by name where scores are equal. */
  lemma ByScoreThenName(z: ZSet, i: nat, j: nat)
    requires Valid(z) && i < j < |z.entries|
    ensures z.entries[i].0 <= z.entries[j].0
    ensures z.entries[i].0 == z.entries[j].0 ==> NameBefore(z.entries[i].1, z.entries[j].1)
  {
    hide BytesLess, NameBefore;
    assert NodeLess(z.entries[i], z.entries[j]);
    BytesLessIs(z.entries[i].1, z.entries[j].1);
  }

  /** A member's rank in a map of scores: how many have a smaller score, and how many the same score and an earlier
      name. */
  ghost function RankOf(scores: map<Bytes, Score>, member: Bytes): (n: nat)
    requires member in scores
  {
    |set m | m in scores && scores[m] < scores[member]| +
    |set m | m in scores && scores[m] == scores[member] && NameBefore(m, member)|
  }

  lemma RankSplits(scores: map<Bytes, Score>, member: Bytes)
    requires member in scores
    ensures |RankSet(scores, (scores[member], member))| == RankOf(scores, member)
  {
    hide BytesLess, NameBefore;
    var lower := set m | m in scores && scores[m] < scores[member];
    var same := set m | m in scores && scores[m] == scores[member] && NameBefore(m, member);
    forall m
      ensures m in RankSet(scores, (scores[member], member)) <==> m in lower + same
    {
      BytesLessIs(m, member);
    }
    assert RankSet(scores, (scores[member], member)) == lower + same && lower !! same;
  }

  /** The members below node `x`. */
  function RankSet(scores: map<Bytes, Score>, x: Node): (r: set<Bytes>) {
    set m | m in scores && NodeLess((scores[m], m), x)
  }

  function MemberSet(es: seq<Node>): (r: set<Bytes>)
    ensures forall m :: m in r <==> exists i :: 0 <= i < |es| && es[i].1 == m
  {
    if es == [] then {}
    else
      var init := es[..|es| - 1];
      assert es == init + [es[|es| - 1]];
      MemberSet(init) + {es[|es| - 1].1}
  }

  lemma {:induction false} DistinctCount(es: seq<Node>)
    requires forall i, j :: 0 <= i < j < |es| ==> es[i].1 != es[j].1
    ensures |MemberSet(es)| == |es|
    decreases |es|
  {
    if es != [] {
      DistinctCount(es[..|es| - 1]);
    }
  }

  lemma OneNodePerMember(z: ZSet, i: nat, j: nat)
    requires Valid(z) && i < j < |z.entries|
    ensures z.entries[i].1 != z.entries[j].1
  {
    assert z.entries[i] in z.entries && z.entries[j] in z.entries;
    NodeLessTotal(z.entries[i], z.entries[i]);
    assert NodeLess(z.entries[i], z.entries[j]);
  }

  /** `zcard`: index, ordered set and map have the same size. */
  lemma Cardinality(z: ZSet)
    requires Valid(z)
    ensures |z.entries| == |z.index| == |Scores(z)|
  {
    hide Valid;
    forall i, j | 0 <= i < j < |z.entries|
      ensures z.entries[i].1 != z.entries[j].1
    {
      OneNodePerMember(z, i, j);
    }
    DistinctCount(z.entries);
    IndexIsMembers(z);
    assert Scores(z).Keys == z.index.Keys;
  }

  lemma IndexIsMembers(z: ZSet)
    requires Valid(z)
    ensures MemberSet(z.entries) == z.index.Keys
  {
    hide NodeLess;
    var t := MemberSet(z.entries);
    forall m | m in z.index
      ensures m in t
    {
      var i :| 0 <= i < |z.entries| && z.entries[i] == z.index[m];
      assert z.entries[i].1 == m;
    }
    forall i | 0 <= i < |z.entries|
      ensures z.entries[i].1 in z.index
    {
      assert z.entries[i] in z.entries;
    }
  }

  /** `zrank`: the distance to a member's node counts the members below it, and the node at that
      distance is the member's. */
  lemma RankCounts(z: ZSet, member: Bytes)
    requires Valid(z) && member in z.index
    ensures
      var r := Below(z.entries, z.index[member]);
      r < |z.entries| && z.entries[r] == (Scores(z)[member], member) &&
      r == RankOf(Scores(z), member)
  {
    hide NodeLess, RankOf;
    RankSplits(Scores(z), member);
    var x := z.index[member];
    var i :| 0 <= i < |z.entries| && z.entries[i] == x;
    BelowMember(z.entries, i);
    var low := z.entries[..i];
    forall a, b | 0 <= a < b < |low|
      ensures low[a].1 != low[b].1
    {
      OneNodePerMember(z, a, b);
    }
    DistinctCount(low);
    RankSetIsPrefix(z, i);
  }

  lemma EarlierIsBelow(z: ZSet, i: nat, m: Bytes)
    requires Valid(z) && i < |z.entries| && m in MemberSet(z.entries[..i])
    ensures m in RankSet(Scores(z), z.entries[i])
  {
    hide NodeLess;
    var es := z.entries;
    var k :| 0 <= k < |es[..i]| && es[..i][k].1 == m;
    assert es[k] in es && NodeLess(es[k], es[i]);
  }

  lemma BelowIsEarlier(z: ZSet, i: nat, m: Bytes)
    requires Valid(z) && i < |z.entries| && m in RankSet(Scores(z), z.entries[i])
    ensures m in MemberSet(z.entries[..i])
  {
    hide NodeLess;
    var es, x := z.entries, z.entries[i];
    var k :| 0 <= k < |es| && es[k] == z.index[m];
    assert i < k ==> NodeLess(x, es[k]);
    NodeLessTotal(es[k], x);
    assert es[..i][k].1 == m;
  }

  lemma RankSetIsPrefix(z: ZSet, i: nat)
    requires Valid(z) && i < |z.entries|
    ensures RankSet(Scores(z), z.entries[i]) == MemberSet(z.entries[..i])
  {
    hide Valid, NodeLess, MemberSet;
    var x := z.entries[i];
    var t := MemberSet(z.entries[..i]);
    forall m
      ensures m in RankSet(Scores(z), x) <==> m in t
    {
      if m in t { EarlierIsBelow(z, i, m); }
      if m in RankSet(Scores(z), x) { BelowIsEarlier(z, i, m); }
    }
  }

  function Members(es: seq<Node>): (r: seq<Bytes>)
    ensures |r| == |es|
  {
    seq(|es|, i requires 0 <= i < |es| => es[i].1)
  }

  function Range(z: ZSet, start: int, stop: int): (r: seq<Bytes>) {
    match RangeBounds(|z.entries|, start, stop)
    case None => []
    case Some((lo, hi)) => Members(z.entries[lo..hi + 1])
  }

  /** `zrange` lists the members by rank: what stands `i` places after the resolved start has that rank. */
  lemma RangeByRank(z: ZSet, start: int, stop: int, i: nat)
    requires Valid(z) && i < |Range(z, start, stop)|
    ensures var m, lo := Range(z, start, stop)[i], RangeBounds(|z.entries|, start, stop).value.0;
      m in Scores(z) && RankOf(Scores(z), m) == lo + i
  {
    hide Valid, RankOf;
    var lo := RangeBounds(|z.entries|, start, stop).value.0;
    NodeAt(z, lo + i);
    RankCounts(z, z.entries[lo + i].1);
  }

  /** `zrange(r, r)` at a member's rank returns exactly that member. */
  lemma RangeAtRank(z: ZSet, member: Bytes)
    requires Valid(z) && member in z.index
    ensures var r := Below(z.entries, z.index[member]); Range(z, r, r) == [member]
  {
    RankCounts(z, member);
    var r := Below(z.entries, z.index[member]);
    assert z.entries[r..r + 1] == [z.entries[r]];
  }

  lemma SameIndex(y: ZSet, z: ZSet)
    requires Valid(y) && Valid(z) && Scores(y) == Scores(z)
    ensures y.index == z.index
  {
    hide Ascending;
    assert y.index.Keys == Scores(y).Keys == Scores(z).Keys == z.index.Keys;
    forall m | m in y.index
      ensures y.index[m] == z.index[m]
    {
      assert Scores(y)[m] == Scores(z)[m];
    }
  }

  lemma NodeAt(z: ZSet, i: nat)
    requires Valid(z) && i < |z.entries|
    ensures z.entries[i].1 in z.index && z.index[z.entries[i].1] == z.entries[i]
    ensures Below(z.entries, z.entries[i]) == i
  {
    hide NodeLess;
    assert z.entries[i] in z.entries;
    BelowMember(z.entries, i);
  }

  /** Two valid sorted sets with the same map are the same: the structure is determined by its meaning. */
  lemma Canonical(y: ZSet, z: ZSet)
    requires Valid(y) && Valid(z) && Scores(y) == Scores(z)
    ensures y == z
  {
    hide NodeLess, Valid, Below, RankOf, Scores;
    SameIndex(y, z);
    Cardinality(y);
    Cardinality(z);
    forall i | 0 <= i < |y.entries|
      ensures y.entries[i] == z.entries[i]
    {
      var m := y.entries[i].1;
      NodeAt(y, i);
      RankCounts(y, m);
      RankCounts(z, m);
    }
  }

  /** Inserting above everything appends: replaying nodes in order rebuilds the set. */
  lemma InsertLast(es: seq<Node>, x: Node)
    requires forall i :: 0 <= i < |es| ==> NodeLess(es[i], x)
    ensures Insert(es, x) == es + [x]
  {
    assert Below(es, x) == |es|;
  }

  // ---------------------------------------------------------------- whole runs

  datatype SetOp = AddOp(score: Score, member: Bytes) | RemoveOp(member: Bytes)

  function SetAfter(ops: seq<SetOp>): (z: ZSet) {
    if ops == [] then EMPTY
    else
      var z := SetAfter(ops[..|ops| - 1]);
      match ops[|ops| - 1]
      case AddOp(score, member) => Add(z, score, member)
      case RemoveOp(member) => Remove(z, member)
  }

  /** The same run on the simple counterpart. */
  function MapAfter(ops: seq<SetOp>): (m: map<Bytes, Score>) {
    if ops == [] then map[]
    else
      var m := MapAfter(ops[..|ops| - 1]);
      match ops[|ops| - 1]
      case AddOp(score, member) => m[member := score]
      case RemoveOp(member) => m - {member}
  }

  /** After any run of adds, score updates and removes the two containers hold the same nodes and mean the map. */
  lemma {:induction false} RunRefines(ops: seq<SetOp>)
    ensures Valid(SetAfter(ops)) && Scores(SetAfter(ops)) == MapAfter(ops)
    decreases |ops|
  {
    hide Valid, Scores, Add, Remove;
    if ops == [] {
      NothingIsValid();
    } else {
      RunRefines(ops[..|ops| - 1]);
      var z := SetAfter(ops[..|ops| - 1]);
      match ops[|ops| - 1]
      case AddOp(score, member) => AddRefines(z, score, member);
      case RemoveOp(member) => RemoveRefines(z, member);
    }
  }

  lemma NothingIsValid()
    ensures Valid(EMPTY) && Scores(EMPTY) == map[]
  {}

  // ---------------------------------------------------------------- the struct, updated in place

  class SortedSet {
    var entries: seq<Node>
    var index: map<Bytes, Node>

    ghost function Value(): (z: ZSet)
      reads this
    {
      ZSet(entries, index)
    }

    constructor ()
      ensures Value() == EMPTY
    {
      entries, index := [], map[];
    }

    method AddMember(score: Score, member: Bytes) returns (added: int)
      requires Valid(Value())
      modifies this
      ensures Valid(Value()) && Value() == Add(old(Value()), score, member)
      ensures Scores(Value()) == Scores(old(Value()))[member := score]
      ensures added == if member in Scores(old(Value())) then 0 else 1
    {
      AddRefines(Value(), score, member);
      if member in index {
        var nh := index[member];
        entries := Erase(entries, nh);
        entries := Insert(entries, (score, nh.1));
        index := index[member := (score, nh.1)];
        return 0;
      }
      entries := Insert(entries, (score, member));
      index := index[member := (score, member)];
      return 1;
    }

    method RemoveMember(member: Bytes) returns (removed: int)
      requires Valid(Value())
      modifies this
      ensures Valid(Value()) && Value() == Remove(old(Value()), member)
      ensures Scores(Value()) == Scores(old(Value())) - {member}
      ensures removed == if member in Scores(old(Value())) then 1 else 0
    {
      RemoveRefines(Value(), member);
      if member !in index {
        return 0;
      }
      var entry := index[member];
      index := index - {member};
      entries := Erase(entries, entry);
      return 1;
    }
  }
}

/** Stream entry identifiers (src/store/stream_id.hpp). */
module StreamIds {
  import opened Base
  import opened Decimal

  datatype StreamId = StreamId(timestamp: int, sequence: int)

  predicate Representable(id: StreamId) {
    IsInt64(id.timestamp) && IsInt64(id.sequence)
  }

  /** The defaulted three-way comparison: timestamp first, then sequence. */
  predicate Less(a: StreamId, b: StreamId) {
    a.timestamp < b.timestamp || (a.timestamp == b.timestamp && a.sequence < b.sequence)
  }

  /** `StreamId::parse`: the first dash separates two complete 64-bit integers. */
  function ParseId(s: Bytes): (r: Option<StreamId>)
    ensures r.Some? ==> Representable(r.value) && r.value.timestamp >= 0
    ensures r.Some? ==> |s| >= 3 && '-' in s && IsDigit(s[0]) && IsDigit(s[|s| - 1])
  {
    var dash := IndexOf(s, '-');
    if dash == |s| then None
    else
      var ts, sequence := ParseInt64(s[..dash]), ParseInt64(s[dash + 1..]);
      if ts.None? || sequence.None? then None
      else
        assert '-' !in s[..dash];
        assert s[dash] in s && s[..dash][0] == s[0] && s[..dash][0] in s[..dash];
        assert s[|s| - 1] == s[dash + 1..][|s| - dash - 2];
        ParsedSign(s[..dash]);
        Some(StreamId(ts.value, sequence.value))
  }

  /** `StreamId::to_string`. */
  function IdText(id: StreamId): (s: Bytes) {
    ToText(id.timestamp) + ['-'] + ToText(id.sequence)
  }

  lemma DigitsHaveNoDash(s: Bytes)
    requires AllDigits(s)
    ensures '-' !in s
  {}

  lemma {:induction false} FirstIndex(a: Bytes, c: char, b: Bytes)
    requires c !in a
    ensures IndexOf(a + [c] + b, c) == |a|
    decreases |a|
  {
    var s := a + [c] + b;
    if a != [] {
      assert s[0] == a[0] && a[0] in a;
      assert s[1..] == a[1..] + [c] + b;
      FirstIndex(a[1..], c, b);
    }
  }

  /** The text of an id parses back to it exactly when its timestamp is not negative: the sign of a
      negative timestamp would be taken for the separating dash. */
  lemma IdRoundTrip(id: StreamId)
    requires Representable(id)
    ensures ParseId(IdText(id)) == Some(id) <==> id.timestamp >= 0
  {
    hide ParseInt64, ToText;
    var a, b := ToText(id.timestamp), ToText(id.sequence);
    var s := IdText(id);
    if id.timestamp >= 0 {
      DigitsHaveNoDash(a);
      FirstIndex(a, '-', b);
      assert s[..|a|] == a && s[|a| + 1..] == b;
      ParseToText(id.timestamp);
      ParseToText(id.sequence);
    }
  }
}

/**
 * Composite keys of the Fabric chaincode shim (CreateCompositeKey): the key is
 * the namespace U+0000, the object type, then every attribute, each segment
 * followed by U+0000. A segment holding U+0000 or U+10FFFF is refused. The
 * scheme serves exact-match point lookups on the whole tuple only; the event
 * store never scans keys by prefix or range (its range lookups are rich
 * queries over the stored records instead).
 */
module CompositeKey {
  import opened Wrappers

  const MinUnicodeRune: char := '\0'
  const MaxUnicodeRune: char := '\U{10FFFF}'
  const Namespace: string := [MinUnicodeRune]

  /** A segment the shim accepts: it holds neither U+0000 nor U+10FFFF. */
  predicate ValidSegment(s: string) {
    forall i :: 0 <= i < |s| ==> s[i] != MinUnicodeRune && s[i] != MaxUnicodeRune
  }

  /** The attributes, each followed by the separator, or None if one is refused. */
  function JoinSegments(attributes: seq<string>): (r: Option<string>)
    ensures r.Some? <==> forall i :: 0 <= i < |attributes| ==> ValidSegment(attributes[i])
    ensures r.Some? && attributes == [] ==> r.value == ""
  {
    if attributes == [] then Some("")
    else if !ValidSegment(attributes[0]) then None
    else match JoinSegments(attributes[1..])
      case None => None
      case Some(rest) => Some(attributes[0] + [MinUnicodeRune] + rest)
  }

  /** CreateCompositeKey(objectType, attributes): fails iff some segment is refused. */
  function CreateCompositeKey(objectType: string, attributes: seq<string>): (r: Option<string>)
    ensures r.Some? <==> ValidSegment(objectType) &&
                         forall i :: 0 <= i < |attributes| ==> ValidSegment(attributes[i])
  {
    if !ValidSegment(objectType) then None
    else match JoinSegments(attributes)
      case None => None
      case Some(tail) => Some(Namespace + objectType + [MinUnicodeRune] + tail)
  }

  /** The position of the first separator in s, or |s| if there is none. */
  function SeparatorIndex(s: string): (n: nat)
    ensures n <= |s|
  {
    if s == [] || s[0] == MinUnicodeRune then 0 else 1 + SeparatorIndex(s[1..])
  }

  lemma {:induction false} SeparatorIndexAfterSegment(a: string, x: string)
    requires ValidSegment(a)
    ensures SeparatorIndex(a + [MinUnicodeRune] + x) == |a|
  {
    if a != [] {
      assert (a + [MinUnicodeRune] + x)[1..] == a[1..] + [MinUnicodeRune] + x;
      SeparatorIndexAfterSegment(a[1..], x);
    }
  }

  /** A separator-free segment followed by a separator splits off uniquely. */
  lemma SplitAtSeparator(a: string, x: string, b: string, y: string)
    requires ValidSegment(a) && ValidSegment(b)
    requires a + [MinUnicodeRune] + x == b + [MinUnicodeRune] + y
    ensures a == b && x == y
  {
    SeparatorIndexAfterSegment(a, x);
    SeparatorIndexAfterSegment(b, y);
    assert a == (a + [MinUnicodeRune] + x)[..|a|];
    assert b == (b + [MinUnicodeRune] + y)[..|b|];
    assert x == (a + [MinUnicodeRune] + x)[|a| + 1..];
    assert y == (b + [MinUnicodeRune] + y)[|b| + 1..];
  }

  lemma {:induction false} JoinSegmentsInjective(as1: seq<string>, as2: seq<string>)
    requires JoinSegments(as1).Some? && JoinSegments(as1) == JoinSegments(as2)
    ensures as1 == as2
  {
    if as1 != [] && as2 != [] {
      var t1, t2 := JoinSegments(as1[1..]).value, JoinSegments(as2[1..]).value;
      SplitAtSeparator(as1[0], t1, as2[0], t2);
      JoinSegmentsInjective(as1[1..], as2[1..]);
      assert as1 == [as1[0]] + as1[1..];
      assert as2 == [as2[0]] + as2[1..];
    }
  }

  /** Distinct tuples never share a key: a key names one (type, attributes) tuple. */
  lemma CreateCompositeKeyInjective(t1: string, as1: seq<string>, t2: string, as2: seq<string>)
    requires CreateCompositeKey(t1, as1).Some?
    requires CreateCompositeKey(t1, as1) == CreateCompositeKey(t2, as2)
    ensures t1 == t2 && as1 == as2
  {
    var j1, j2 := JoinSegments(as1).value, JoinSegments(as2).value;
    assert Namespace + t1 + [MinUnicodeRune] + j1 == Namespace + (t1 + [MinUnicodeRune] + j1);
    assert Namespace + t2 + [MinUnicodeRune] + j2 == Namespace + (t2 + [MinUnicodeRune] + j2);
    assert t1 + [MinUnicodeRune] + j1 == (Namespace + (t1 + [MinUnicodeRune] + j1))[1..];
    assert t2 + [MinUnicodeRune] + j2 == (Namespace + (t2 + [MinUnicodeRune] + j2))[1..];
    SplitAtSeparator(t1, j1, t2, j2);
    JoinSegmentsInjective(as1, as2);
  }
}

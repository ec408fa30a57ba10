/**
 * One-hot encoding over an ordered list of category labels: the label at
 * position `k` of a list of `n` labels becomes the length-`n` sequence with a
 * single 1 at position `k` and 0 everywhere else.
 */
module OneHot {
  import opened Wrappers

  /** No label occurs twice in `labels`. */
  predicate Distinct<T(==)>(labels: seq<T>) {
    forall i, j :: 0 <= i < j < |labels| ==> labels[i] != labels[j]
  }

  /** `v` is a one-hot vector whose single 1 sits at position `k`. */
  predicate IsOneHotAt(v: seq<int>, k: nat) {
    k < |v| && forall j :: 0 <= j < |v| ==> v[j] == (if j == k then 1 else 0)
  }

  /** Number of occurrences of `x` in `s`. */
  function Count<T(==)>(s: seq<T>, x: T): nat {
    if |s| == 0 then 0 else (if s[0] == x then 1 else 0) + Count(s[1..], x)
  }

  /** The first position of `x` in `s`, or `None` when `x` does not occur. */
  function Find<T(==)>(s: seq<T>, x: T): (r: Option<nat>)
    ensures r.Some? <==> x in s
    ensures r.Some? ==> r.value < |s| && s[r.value] == x && x !in s[..r.value]
  {
    if |s| == 0 then None
    else if s[0] == x then Some(0)
    else match Find(s[1..], x)
      case None => None
      case Some(i) =>
        assert s[1..][..i] == s[1..i + 1];
        Some(i + 1)
  }

  /** The position of a label that is known to be in the list (its first occurrence). */
  function IndexOf<T(==)>(labels: seq<T>, l: T): (i: nat)
    requires l in labels
    ensures i < |labels| && labels[i] == l
    ensures forall j :: 0 <= j < i ==> labels[j] != l
  {
    var i := Find(labels, l).value;
    assert forall j :: 0 <= j < i ==> labels[j] == labels[..i][j];
    i
  }

  /** In a list without repeated labels, the label at position `i` is found at `i`. */
  lemma IndexOfDistinct<T>(labels: seq<T>, i: nat)
    requires Distinct(labels) && i < |labels|
    ensures IndexOf(labels, labels[i]) == i
  {
  }

  /** The length-`n` vector with a 1 at position `k` and 0 elsewhere. */
  function UnitVector(n: nat, k: nat): (v: seq<int>)
    requires k < n
    ensures |v| == n && IsOneHotAt(v, k)
  {
    seq(n, j => if j == k then 1 else 0)
  }

  /**
   * Encodes `l` against `labels`; a label outside the list has no encoding.
   * (EncodingShape states what an encoding looks like.)
   */
  function Encode<T(==)>(labels: seq<T>, l: T): (r: Option<seq<int>>)
    ensures r.Some? <==> l in labels
    ensures r.Some? ==> |r.value| == |labels|
  {
    if l in labels then Some(UnitVector(|labels|, IndexOf(labels, l))) else None
  }

  /**
   * Decodes a vector back to its label: the vector must have the list's width
   * and be one-hot; the label is the one at the position of its 1.
   */
  function Decode<T(==)>(labels: seq<T>, v: seq<int>): (r: Option<T>)
    ensures r.Some? ==> |v| == |labels| && r.value in labels
  {
    match Find(v, 1)
    case Some(k) =>
      if |v| == |labels| && IsOneHotAt(v, k) then Some(labels[k]) else None
    case None => None
  }

  /** A sequence holding only `y` counts `|s|` copies of `y` and none of any other value. */
  lemma {:induction false} CountConstant<T>(s: seq<T>, x: T, y: T)
    requires forall j :: 0 <= j < |s| ==> s[j] == y
    ensures Count(s, x) == if x == y then |s| else 0
  {
    if |s| > 0 {
      CountConstant(s[1..], x, y);
    }
  }

  /** A one-hot vector holds exactly one 1 and `|v| - 1` zeros. */
  lemma {:induction false} OneHotCounts(v: seq<int>, k: nat)
    requires IsOneHotAt(v, k)
    ensures Count(v, 1) == 1
    ensures Count(v, 0) == |v| - 1
  {
    if k == 0 {
      CountConstant(v[1..], 1, 0);
      CountConstant(v[1..], 0, 0);
    } else {
      OneHotCounts(v[1..], k - 1);
    }
  }

  /**
   * Decoding succeeds exactly on one-hot vectors of the list's width, and gives
   * the label at the position of the vector's 1.
   */
  lemma DecodeSpec<T>(labels: seq<T>, v: seq<int>)
    ensures forall k: nat :: IsOneHotAt(v, k) && |v| == |labels| ==> Decode(labels, v) == Some(labels[k])
    ensures Decode(labels, v).Some? ==> |v| == |labels| && 1 in v && IsOneHotAt(v, IndexOf(v, 1))
    ensures Decode(labels, v).Some? ==> Decode(labels, v).value == labels[IndexOf(v, 1)]
  {
    // a one-hot vector holds a 1 exactly at its hot position
    assert forall k: nat :: IsOneHotAt(v, k) ==> v[k] == 1;
  }

  /** Every encoding has the list's width, a single 1 at the label's position, and zeros elsewhere. */
  lemma EncodingShape<T>(labels: seq<T>, l: T)
    requires l in labels
    ensures Encode(labels, l).Some?
    ensures |Encode(labels, l).value| == |labels|
    ensures IsOneHotAt(Encode(labels, l).value, IndexOf(labels, l))
    ensures Count(Encode(labels, l).value, 1) == 1
    ensures Count(Encode(labels, l).value, 0) == |labels| - 1
  {
    OneHotCounts(Encode(labels, l).value, IndexOf(labels, l));
  }

  /** Decoding an encoding gives back the label. */
  lemma DecodeEncode<T>(labels: seq<T>, l: T)
    requires l in labels
    ensures Decode(labels, Encode(labels, l).value) == Some(l)
  {
    DecodeSpec(labels, Encode(labels, l).value);
  }

  /**
   * Over a list without repeated labels, every vector that decodes to `l` is
   * exactly the encoding of `l`.
   */
  lemma EncodeDecode<T>(labels: seq<T>, v: seq<int>, l: T)
    requires Distinct(labels)
    requires Decode(labels, v) == Some(l)
    ensures Encode(labels, l) == Some(v)
  {
    DecodeSpec(labels, v);
    var k := IndexOf(v, 1);
    assert labels[k] == l;
    assert IndexOf(labels, l) == k;
    assert UnitVector(|labels|, k) == v;
  }

  /** Two labels with the same encoding are the same label. */
  lemma EncodeInjective<T>(labels: seq<T>, l1: T, l2: T)
    requires Encode(labels, l1).Some?
    requires Encode(labels, l1) == Encode(labels, l2)
    ensures l1 == l2
  {
    DecodeEncode(labels, l1);
    DecodeEncode(labels, l2);
  }
}

/** Python's `sep.join(parts)` on strings, and where each part lands in the result. */
module Strings {
  import opened Results

  /** `sep.join(parts)`. */
  function Join(sep: string, parts: seq<string>): (r: string)
    decreases |parts|
  {
    if |parts| == 0 then ""
    else if |parts| == 1 then parts[0]
    else parts[0] + sep + Join(sep, parts[1..])
  }

  /** Total length of the first `k` parts. */
  function LengthBefore(parts: seq<string>, k: nat): nat
    requires k <= |parts|
  {
    if k == 0 then 0 else LengthBefore(parts, k - 1) + |parts[k - 1]|
  }

  /** Where part `k` starts in `Join(sep, parts)`. */
  function Offset(sep: string, parts: seq<string>, k: nat): nat
    requires k <= |parts|
  {
    LengthBefore(parts, k) + k * |sep|
  }

  lemma {:induction false} LengthBeforeTail(parts: seq<string>, k: nat)
    requires 1 <= k <= |parts|
    ensures LengthBefore(parts, k) == |parts[0]| + LengthBefore(parts[1..], k - 1)
  {
    if k > 1 {
      LengthBeforeTail(parts, k - 1);
    }
  }

  lemma {:induction false} OffsetTail(sep: string, parts: seq<string>, i: nat)
    requires 1 <= i <= |parts|
    ensures Offset(sep, parts, i) == |parts[0]| + |sep| + Offset(sep, parts[1..], i - 1)
  {
    LengthBeforeTail(parts, i);
  }

  /** The joined string is as long as all parts plus one separator between each two. */
  lemma {:induction false} JoinLength(sep: string, parts: seq<string>)
    requires |parts| >= 1
    ensures |Join(sep, parts)| == Offset(sep, parts, |parts| - 1) + |parts[|parts| - 1]|
    decreases |parts|
  {
    if |parts| > 1 {
      JoinLength(sep, parts[1..]);
      OffsetTail(sep, parts, |parts| - 1);
    }
  }

  /** Part `k` stands in the joined string at its offset. */
  lemma {:induction false} JoinPart(sep: string, parts: seq<string>, k: nat)
    requires k < |parts|
    ensures Offset(sep, parts, k) + |parts[k]| <= |Join(sep, parts)|
    ensures Join(sep, parts)[Offset(sep, parts, k)..Offset(sep, parts, k) + |parts[k]|] == parts[k]
    decreases |parts|
  {
    if |parts| > 1 {
      var rest := parts[1..];
      var j, jr := Join(sep, parts), Join(sep, rest);
      var p := |parts[0]| + |sep|;
      assert j == parts[0] + sep + jr;
      if k == 0 {
        assert j[0..|parts[0]|] == parts[0];
      } else {
        JoinPart(sep, rest, k - 1);
        OffsetTail(sep, parts, k);
        assert parts[k] == rest[k - 1];
        assert j[p..] == jr;
        SliceOfSuffix(j, p, Offset(sep, parts, k), Offset(sep, parts, k) + |parts[k]|);
      }
    }
  }

  /** Between part `k` and part `k + 1` stands exactly one separator. */
  lemma {:induction false} JoinSeparator(sep: string, parts: seq<string>, k: nat)
    requires k + 1 < |parts|
    ensures Offset(sep, parts, k + 1) <= |Join(sep, parts)|
    ensures Join(sep, parts)[Offset(sep, parts, k) + |parts[k]|..Offset(sep, parts, k + 1)] == sep
    decreases |parts|
  {
    var rest := parts[1..];
    var j, jr := Join(sep, parts), Join(sep, rest);
    var p := |parts[0]| + |sep|;
    assert j == parts[0] + sep + jr;
    JoinPart(sep, parts, k + 1);
    if k == 0 {
      assert Offset(sep, parts, 0) == 0 && Offset(sep, parts, 1) == p;
      assert j[|parts[0]|..p] == sep;
    } else {
      JoinSeparator(sep, rest, k - 1);
      OffsetTail(sep, parts, k);
      OffsetTail(sep, parts, k + 1);
      var a, b := Offset(sep, parts, k) + |parts[k]|, Offset(sep, parts, k + 1);
      assert parts[k] == rest[k - 1];
      assert a - p == Offset(sep, rest, k - 1) + |rest[k - 1]| && b - p == Offset(sep, rest, k);
      assert j[p..] == jr;
      SliceOfSuffix(j, p, a, b);
    }
  }
}

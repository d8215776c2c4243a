/**
  * Python's ordering of `str` values: code point by code point, a proper prefix
  * sorting first. `sorted()` of a set of distinct names is the one strictly
  * ascending sequence of those names.
  */
module LexOrder {

  /** `a < b` on Python strings. */
  predicate Less(a: string, b: string)
    ensures Less(a, b) ==> a != b
    ensures |a| < |b| && a == b[..|a|] ==> Less(a, b)
    decreases |a|
  {
    if |a| == 0 then |b| > 0
    else if |b| == 0 then false
    else a[0] < b[0] || (a[0] == b[0] && Less(a[1..], b[1..]))
  }

  lemma {:induction false} LessIrreflexive(a: string)
    ensures !Less(a, a)
    decreases |a|
  {
    if |a| > 0 {
      LessIrreflexive(a[1..]);
    }
  }

  lemma {:induction false} LessTransitive(a: string, b: string, c: string)
    requires Less(a, b) && Less(b, c)
    ensures Less(a, c)
    decreases |a|
  {
    if |a| > 0 && a[0] == b[0] && b[0] == c[0] {
      LessTransitive(a[1..], b[1..], c[1..]);
    }
  }

  lemma {:induction false} LessAsymmetric(a: string, b: string)
    requires Less(a, b)
    ensures !Less(b, a)
  {
    if Less(b, a) {
      LessTransitive(a, b, a);
      LessIrreflexive(a);
    }
  }

  lemma {:induction false} LessTotal(a: string, b: string)
    requires a != b
    ensures Less(a, b) || Less(b, a)
    decreases |a|
  {
    if |a| > 0 && |b| > 0 && a[0] == b[0] {
      assert a == [a[0]] + a[1..] && b == [b[0]] + b[1..];
      LessTotal(a[1..], b[1..]);
    }
  }

  /** A shared prefix does not change the order. */
  lemma {:induction false} LessCommonPrefix(p: string, x: string, y: string)
    ensures Less(p + x, p + y) <==> Less(x, y)
    decreases |p|
  {
    if |p| > 0 {
      assert (p + x)[0] == p[0] == (p + y)[0];
      assert (p + x)[1..] == p[1..] + x && (p + y)[1..] == p[1..] + y;
      assert Less(p + x, p + y) == Less(p[1..] + x, p[1..] + y);
      LessCommonPrefix(p[1..], x, y);
    } else {
      assert p + x == x && p + y == y;
    }
  }

  ghost predicate StrictlySorted(s: seq<string>) {
    forall i, j :: 0 <= i < j < |s| ==> Less(s[i], s[j])
  }

  /** Ascending neighbours make an ascending sequence. */
  lemma {:induction false} ChainSorted(s: seq<string>)
    requires forall i :: 0 <= i < |s| - 1 ==> Less(s[i], s[i + 1])
    ensures StrictlySorted(s)
    decreases |s|
  {
    if |s| > 1 {
      var t := s[1..];
      ChainSorted(t);
      forall j | 1 <= j < |s|
        ensures Less(s[0], s[j])
      {
        if j > 1 {
          assert Less(t[0], t[j - 1]);
          LessTransitive(s[0], s[1], s[j]);
        }
      }
    }
  }

  /** `m` is the least element of `s`. */
  ghost predicate IsMinimum(m: string, s: set<string>) {
    m in s && forall x :: x in s && x != m ==> Less(m, x)
  }

  lemma {:induction false} MinimumExists(s: set<string>)
    requires s != {}
    ensures exists m :: IsMinimum(m, s)
    decreases |s|
  {
    var y :| y in s;
    var rest := s - {y};
    if rest == {} {
      assert s == {y};
      assert IsMinimum(y, s);
    } else {
      MinimumExists(rest);
      var m :| IsMinimum(m, rest);
      if Less(y, m) {
        forall x | x in s && x != y
          ensures Less(y, x)
        {
          if x != m {
            assert x in rest;
            LessTransitive(y, m, x);
          }
        }
        assert IsMinimum(y, s);
      } else {
        LessTotal(y, m);
        assert IsMinimum(m, s);
      }
    }
  }

  lemma HeadIsElement(s: seq<string>)
    ensures |s| > 0 ==> s[0] in s
  {
  }

  /** Two ascending sequences over the same elements are equal. */
  lemma {:induction false} SortedUnique(a: seq<string>, b: seq<string>)
    requires StrictlySorted(a) && StrictlySorted(b)
    requires forall x :: x in a <==> x in b
    ensures a == b
    decreases |a|
  {
    if |a| > 0 {
      assert a[0] in b;
      assert b != [];
      if a[0] != b[0] {
        assert b[0] in a;
        var i :| 0 <= i < |a| && a[i] == b[0];
        var j :| 0 <= j < |b| && b[j] == a[0];
        assert Less(a[0], a[i]) && Less(b[0], b[j]);
        LessAsymmetric(a[0], b[0]);
        assert false;
      }
      forall x
        ensures x in a[1..] <==> x in b[1..]
      {
        if x in a[1..] {
          var i :| 1 <= i < |a| && a[i] == x;
          assert Less(a[0], a[i]);
          LessIrreflexive(x);
          assert x in b && x != b[0];
        }
        if x in b[1..] {
          var j :| 1 <= j < |b| && b[j] == x;
          assert Less(b[0], b[j]);
          LessIrreflexive(x);
          assert x in a && x != a[0];
        }
      }
      SortedUnique(a[1..], b[1..]);
      assert a == [a[0]] + a[1..] && b == [b[0]] + b[1..];
    } else {
      HeadIsElement(b);
    }
  }

  /** `sorted(names)` for a set of distinct names. */
  ghost function Sorted(s: set<string>): (r: seq<string>)
    ensures StrictlySorted(r)
    ensures forall x :: x in r <==> x in s
    ensures |r| == |s|
    decreases |s|
  {
    if s == {} then []
    else
      MinimumExists(s);
      var m :| IsMinimum(m, s);
      var tail := Sorted(s - {m});
      ConsMinimum(m, s, tail);
      [m] + tail
  }

  /** The least name of `s` in front of the sorted rest is `s` sorted. */
  lemma ConsMinimum(m: string, s: set<string>, tail: seq<string>)
    requires IsMinimum(m, s)
    requires StrictlySorted(tail) && |tail| == |s - {m}|
    requires forall x :: x in tail <==> x in s - {m}
    ensures StrictlySorted([m] + tail)
    ensures forall x :: x in [m] + tail <==> x in s
    ensures |[m] + tail| == |s|
  {
    var r := [m] + tail;
    forall i, j | 0 <= i < j < |r|
      ensures Less(r[i], r[j])
    {
      assert r[j] == tail[j - 1] && tail[j - 1] in s - {m};
      if i > 0 {
        assert r[i] == tail[i - 1];
      }
    }
  }

  /**
    * Selection sort so far: `picked` holds, in ascending order, the names of
    * `all` no longer in `remaining`, and each of them sorts before every name
    * still remaining.
    */
  ghost predicate Selected(all: set<string>, remaining: set<string>, picked: seq<string>) {
    && remaining <= all
    && (forall x :: x in picked <==> x in all && x !in remaining)
    && StrictlySorted(picked)
    && (forall i, x :: 0 <= i < |picked| && x in remaining ==> Less(picked[i], x))
  }

  /** Moving the least remaining name to the end of `picked` keeps the selection sorted. */
  lemma SelectMinimum(all: set<string>, remaining: set<string>, picked: seq<string>, m: string)
    requires Selected(all, remaining, picked) && IsMinimum(m, remaining)
    ensures Selected(all, remaining - {m}, picked + [m])
  {
    var next := picked + [m];
    forall i, j | 0 <= i < j < |next|
      ensures Less(next[i], next[j])
    {
      if j == |picked| {
        assert next[i] == picked[i];
      }
    }
  }

  /** With nothing remaining, the selection is `sorted(all)`. */
  lemma SelectionComplete(all: set<string>, picked: seq<string>)
    requires Selected(all, {}, picked)
    ensures picked == Sorted(all)
  {
    SortedUnique(picked, Sorted(all));
  }
}

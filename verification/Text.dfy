/** Splitting sequences at a separator, joining them again, and reversal. */
module Text {
  /** Where the first separator is, or the length. */
  function CutAt<T(==)>(s: seq<T>, c: T): (n: nat)
    ensures n <= |s| && c !in s[..n] && (n < |s| ==> s[n] == c)
  {
    if s == [] || s[0] == c then 0 else
      assert forall k | 1 <= k <= |s| :: s[..k] == [s[0]] + s[1..][..k - 1];
      1 + CutAt(s[1..], c)
  }

  function Split<T(==)>(s: seq<T>, c: T): (parts: seq<seq<T>>)
    ensures parts != []
    decreases |s|
  {
    var n := CutAt(s, c);
    if n == |s| then [s] else [s[..n]] + Split(s[n + 1..], c)
  }

  function Join<T>(parts: seq<seq<T>>, c: T): seq<T> {
    if parts == [] then []
    else if |parts| == 1 then parts[0]
    else parts[0] + [c] + Join(parts[1..], c)
  }

  lemma {:induction false} JoinSplit<T>(s: seq<T>, c: T)
    ensures Join(Split(s, c), c) == s
    decreases |s|
  {
    var n := CutAt(s, c);
    if n < |s| {
      JoinSplit(s[n + 1..], c);
      JoinCons(s[..n], Split(s[n + 1..], c), c);
      assert s == s[..n] + [c] + s[n + 1..];
    }
  }

  lemma JoinCons<T>(head: seq<T>, rest: seq<seq<T>>, c: T)
    requires rest != []
    ensures Join([head] + rest, c) == head + [c] + Join(rest, c)
  {
    assert ([head] + rest)[1..] == rest;
  }

  lemma {:induction false} CutUnique<T>(a: seq<T>, c: T, b: seq<T>)
    requires c !in a
    ensures CutAt(a + [c] + b, c) == |a|
  {
    if a != [] {
      assert (a + [c] + b)[1..] == a[1..] + [c] + b;
      CutUnique(a[1..], c, b);
    }
  }

  lemma {:induction false} CutNone<T>(a: seq<T>, c: T)
    requires c !in a
    ensures CutAt(a, c) == |a|
  {
    if a != [] {
      CutNone(a[1..], c);
    }
  }

  lemma {:induction false} SplitJoin<T>(parts: seq<seq<T>>, c: T)
    requires parts != [] && forall p | p in parts :: c !in p
    ensures Split(Join(parts, c), c) == parts
  {
    assert parts[0] in parts;
    if |parts| == 1 {
      CutNone(parts[0], c);
    } else {
      var s := parts[0] + [c] + Join(parts[1..], c);
      CutUnique(parts[0], c, Join(parts[1..], c));
      assert s[..|parts[0]|] == parts[0] && s[|parts[0]| + 1..] == Join(parts[1..], c);
      SplitJoin(parts[1..], c);
      assert parts == [parts[0]] + parts[1..];
    }
  }

  lemma {:induction false} SplitFree<T>(s: seq<T>, c: T, p: seq<T>)
    requires p in Split(s, c)
    ensures c !in p && forall x | x in p :: x in s
    decreases |s|
  {
    var n := CutAt(s, c);
    if n == |s| {
      assert s[..n] == s;
    } else if p != s[..n] {
      SplitFree(s[n + 1..], c, p);
    }
  }

  lemma {:induction false} JoinConcat<T>(a: seq<seq<T>>, b: seq<seq<T>>, c: T)
    requires a != [] && b != []
    ensures Join(a + b, c) == Join(a, c) + [c] + Join(b, c)
  {
    if |a| == 1 {
      JoinCons(a[0], b, c);
      assert a + b == [a[0]] + b;
    } else {
      JoinConcat(a[1..], b, c);
      JoinCons(a[0], a[1..] + b, c);
      assert a + b == [a[0]] + (a[1..] + b);
    }
  }

  function Reverse<T>(s: seq<T>): (r: seq<T>)
    ensures |r| == |s| && forall i | 0 <= i < |s| :: r[i] == s[|s| - 1 - i]
  {
    if s == [] then [] else Reverse(s[1..]) + [s[0]]
  }

  lemma ReverseTwice<T>(s: seq<T>)
    ensures Reverse(Reverse(s)) == s
  {
  }
}

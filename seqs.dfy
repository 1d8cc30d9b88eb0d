/** Sequence helpers shared by the ledger modules. */
module Seqs {

  predicate Distinct<T(==)>(s: seq<T>)
  {
    forall i, j :: 0 <= i < j < |s| ==> s[i] != s[j]
  }

  /** How many times `x` occurs in `s`. */
  function Occ<T(==)>(s: seq<T>, x: T): nat
  {
    if s == [] then 0 else Occ(s[..|s| - 1], x) + (if s[|s| - 1] == x then 1 else 0)
  }

  lemma {:induction false} OccPositive<T>(s: seq<T>, x: T)
    ensures Occ(s, x) > 0 <==> x in s
  {
    if s != [] {
      OccPositive(s[..|s| - 1], x);
      assert s == s[..|s| - 1] + [s[|s| - 1]];
    }
  }

  lemma {:induction false} OccConcat<T>(a: seq<T>, b: seq<T>, x: T)
    ensures Occ(a + b, x) == Occ(a, x) + Occ(b, x)
  {
    if b != [] {
      assert (a + b)[..|a + b| - 1] == a + b[..|b| - 1];
      OccConcat(a, b[..|b| - 1], x);
    } else {
      assert a + b == a;
    }
  }

  /** In a sequence without repetitions every element occurs once. */
  lemma {:induction false} OccDistinct<T>(s: seq<T>, x: T)
    requires Distinct(s)
    ensures Occ(s, x) == if x in s then 1 else 0
  {
    if s != [] {
      var init := s[..|s| - 1];
      OccDistinct(init, x);
      assert s == init + [s[|s| - 1]];
      if s[|s| - 1] == x {
        assert x !in init;
      }
    }
  }

  /** The distinct elements of `s`, in the order in which they first occur. */
  function Dedup<T(==,!new)>(s: seq<T>): (d: seq<T>)
    ensures Distinct(d)
    ensures forall x :: x in d <==> x in s
  {
    if s == [] then []
    else
      var d := Dedup(s[..|s| - 1]);
      assert s == s[..|s| - 1] + [s[|s| - 1]];
      if s[|s| - 1] in d then d else d + [s[|s| - 1]]
  }

  /** One more element joins the distinct elements at the end, unless it occurred already. */
  lemma DedupSnoc<T(!new)>(s: seq<T>, x: T)
    ensures Dedup(s + [x]) == if x in s then Dedup(s) else Dedup(s) + [x]
  {
    assert (s + [x])[..|s|] == s;
  }

  /** The position of the first `x` in `s`. */
  function IndexOf<T(==)>(s: seq<T>, x: T): (i: nat)
    requires x in s
    ensures i < |s| && s[i] == x && x !in s[..i]
  {
    if s[0] == x then 0
    else
      assert s[1..][IndexOf(s[1..], x)] == x;
      1 + IndexOf(s[1..], x)
  }

  /** In a sequence without repetitions the position of `s[k]` is `k`. */
  lemma IndexOfDistinct<T>(s: seq<T>, k: nat)
    requires Distinct(s) && k < |s|
    ensures IndexOf(s, s[k]) == k
  {
    var i := IndexOf(s, s[k]);
    assert s[i] == s[k];
  }

  /**
   * Dedup keeps first-occurrence order: of two of its elements, the one
   * that comes first also first occurs earlier in `s`.
   */
  lemma {:induction false} DedupOrder<T(!new)>(s: seq<T>, a: nat, b: nat)
    requires a < b < |Dedup(s)|
    ensures IndexOf(s, Dedup(s)[a]) < IndexOf(s, Dedup(s)[b])
  {
    var init := s[..|s| - 1];
    var d := Dedup(init);
    var last := s[|s| - 1];
    assert s == init + [last];
    if last in d {
      DedupOrder(init, a, b);
      IndexOfPrefix(init, last, d[a]);
      IndexOfPrefix(init, last, d[b]);
    } else {
      if b < |d| {
        DedupOrder(init, a, b);
        IndexOfPrefix(init, last, d[a]);
        IndexOfPrefix(init, last, d[b]);
      } else {
        assert Dedup(s)[b] == last && last !in init;
        IndexOfPrefix(init, last, d[a]);
        assert forall k :: 0 <= k < |init| ==> s[k] in init;
      }
    }
  }

  lemma IndexOfPrefix<T>(init: seq<T>, last: T, x: T)
    requires x in init
    ensures IndexOf(init + [last], x) == IndexOf(init, x)
  {
    var s := init + [last];
    var i := IndexOf(init, x);
    var j := IndexOf(s, x);
    assert s[i] == x;
  }

  /** `k` copies of `x`. */
  function Repeat<T>(x: T, k: nat): (r: seq<T>)
    ensures |r| == k && forall i :: 0 <= i < k ==> r[i] == x
  {
    if k == 0 then [] else Repeat(x, k - 1) + [x]
  }

  /**
   * JavaScript's `s.slice(-n)` for an integer `n`: the last `n` items
   * (all of them when there are fewer), the whole sequence for `n == 0`
   * because `-0` is `0`, and all but the first `-n` items for negative `n`.
   */
  function SliceFromEnd<T>(s: seq<T>, n: int): (w: seq<T>)
    ensures |w| <= |s| && w == s[|s| - |w|..]
    ensures n >= 1 ==> |w| == if n < |s| then n else |s|
    ensures n == 0 ==> w == s
    ensures n < 0 ==> |w| == if -n < |s| then |s| + n else 0
  {
    if n > 0 then s[if n < |s| then |s| - n else 0..]
    else s[if -n < |s| then -n else |s|..]
  }

}

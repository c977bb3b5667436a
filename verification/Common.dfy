/** Shared vocabulary: optional values, bounded deques, and dict keys in insertion order. */
module Common {
  datatype Option<+T> = None | Some(value: T)

  /** The last `n` elements of `s`: what a `deque(maxlen=n)` keeps of everything appended to it. */
  function LastN<T>(s: seq<T>, n: nat): (r: seq<T>)
  {
    if |s| <= n then s else s[|s| - n..]
  }

  /** Appending to a bounded deque and dropping from the left keeps the last `n` of the whole history. */
  lemma LastNAppend<T>(s: seq<T>, x: T, n: nat)
    ensures LastN(LastN(s, n) + [x], n) == LastN(s + [x], n)
  {
    assert LastN(LastN(s, n) + [x], n) == LastN(s + [x], n);
  }

  /** Removing one key from a dict's keys in insertion order. */
  function Without<T(==)>(order: seq<T>, key: T): seq<T>
  {
    if order == [] then [] else
    if order[0] == key then order[1..] else
    var rest := Without(order[1..], key);
    [order[0]] + rest
  }

  /** The numbers from `lo` up to, not including, `hi`. */
  function Span(lo: nat, hi: nat): (r: seq<nat>)
    requires lo <= hi
    ensures |r| == hi - lo
    ensures forall i :: 0 <= i < |r| ==> r[i] == lo + i
    ensures forall k :: k in r <==> lo <= k < hi
  {
    if lo == hi then [] else Span(lo, hi - 1) + [hi - 1]
  }

  lemma SpanEnds(lo: nat, hi: nat)
    requires lo <= hi
    ensures Span(lo, hi + 1) == Span(lo, hi) + [hi]
    ensures lo < hi ==> Span(lo, hi)[1..] == Span(lo + 1, hi)
  {
  }

  /** The last `m` of the ids given out below `n`. */
  lemma NewestSpan(n: nat, m: nat, k: nat)
    requires 1 <= n && k == if n - 1 <= m then n - 1 else m
    ensures LastN(Span(1, n), m) == Span(n - k, n)
  {
  }

  lemma NewestIsLast(n: nat, m: nat)
    requires 2 <= n && 0 < m
    ensures n - 1 in LastN(Span(1, n), m)
  {
    var all := Span(1, n);
    assert all[|all| - 1] == n - 1 && LastN(all, m)[|LastN(all, m)| - 1] == all[|all| - 1];
  }
}

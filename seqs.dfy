/** Generic list operations with the semantics of the JavaScript array methods the portal
    uses: `filter`, a stable `sort` by a numeric key, `slice`, chunking and in-place
    replacement by id. */
module Seqs {
  import opened Wrappers

  /** `r` can be obtained from `xs` by deleting elements, keeping the order of the rest. */
  ghost predicate IsSubsequence<T>(r: seq<T>, xs: seq<T>)
    decreases |xs|
  {
    if r == [] then true
    else if xs == [] then false
    else if r[0] == xs[0] then IsSubsequence(r[1..], xs[1..])
    else IsSubsequence(r, xs[1..])
  }

  lemma {:induction false} SubsequenceDropFirst<T>(r: seq<T>, xs: seq<T>)
    requires r != [] && IsSubsequence(r, xs)
    ensures IsSubsequence(r[1..], xs)
    decreases |xs|, 0
  {
    if r[0] == xs[0] {
      SubsequenceOfCons(r[1..], xs[0], xs[1..]);
      assert xs == [xs[0]] + xs[1..];
    } else {
      SubsequenceDropFirst(r, xs[1..]);
      SubsequenceOfCons(r[1..], xs[0], xs[1..]);
      assert xs == [xs[0]] + xs[1..];
    }
  }

  lemma {:induction false} SubsequenceOfCons<T>(r: seq<T>, x: T, xs: seq<T>)
    requires IsSubsequence(r, xs)
    ensures IsSubsequence(r, [x] + xs)
    decreases |xs|, 1
  {
    var ys := [x] + xs;
    assert ys[1..] == xs;
    if r != [] && r[0] == x {
      SubsequenceDropFirst(r, xs);
    }
  }

  /** Subsequences compose. */
  lemma {:induction false} SubsequenceTransitive<T>(r: seq<T>, s: seq<T>, t: seq<T>)
    requires IsSubsequence(r, s) && IsSubsequence(s, t)
    ensures IsSubsequence(r, t)
    decreases |t|
  {
    if r != [] {
      if s[0] == t[0] && r[0] == s[0] {
        SubsequenceTransitive(r[1..], s[1..], t[1..]);
      } else {
        if s[0] == t[0] {
          SubsequenceTransitive(r, s[1..], t[1..]);
        } else {
          SubsequenceTransitive(r, s, t[1..]);
        }
        SubsequenceOfCons(r, t[0], t[1..]);
        assert t == [t[0]] + t[1..];
      }
    }
  }

  /** A prefix is a subsequence. */
  lemma {:induction false} PrefixSubsequence<T>(r: seq<T>, xs: seq<T>)
    requires r <= xs
    ensures IsSubsequence(r, xs)
  {
    if r != [] {
      PrefixSubsequence(r[1..], xs[1..]);
    }
  }

  /** `xs.filter(p)`: the elements of `xs` that satisfy `p`, in their original order,
      each as often as it occurs in `xs`. */
  function Filter<T(!new)>(xs: seq<T>, p: T -> bool): (r: seq<T>)
    ensures |r| <= |xs|
    ensures forall i :: 0 <= i < |r| ==> p(r[i])
    ensures forall x :: multiset(r)[x] == if p(x) then multiset(xs)[x] else 0
    ensures forall x :: x in r <==> x in xs && p(x)
    ensures IsSubsequence(r, xs)
  {
    if xs == [] then []
    else
      var rest := Filter(xs[1..], p);
      assert xs == [xs[0]] + xs[1..];
      if p(xs[0]) then
        assert ([xs[0]] + rest)[1..] == rest;
        [xs[0]] + rest
      else
        SubsequenceOfCons(rest, xs[0], xs[1..]);
        rest
  }

  lemma {:induction false} FilterKeepsAll<T(!new)>(xs: seq<T>, p: T -> bool)
    requires forall i :: 0 <= i < |xs| ==> p(xs[i])
    ensures Filter(xs, p) == xs
  {
    if xs != [] {
      FilterKeepsAll(xs[1..], p);
    }
  }

  /** Where each survivor of a filter came from: increasing positions of `xs`. */
  lemma {:induction false} FilterIndices<T(!new)>(xs: seq<T>, p: T -> bool) returns (f: seq<nat>)
    ensures |f| == |Filter(xs, p)|
    ensures forall i :: 0 <= i < |f| ==> f[i] < |xs| && Filter(xs, p)[i] == xs[f[i]]
    ensures forall i, j :: 0 <= i < j < |f| ==> f[i] < f[j]
  {
    if xs == [] {
      f := [];
    } else {
      var g := FilterIndices(xs[1..], p);
      var rest := Filter(xs[1..], p);
      f := ConsIndices(xs, p(xs[0]), rest, g);
      assert Filter(xs, p) == if p(xs[0]) then [xs[0]] + rest else rest;
    }
  }

  /** The positions of `xs[1..]` survivors, shifted past `xs[0]`, and 0 when it is kept. */
  lemma ConsIndices<T>(xs: seq<T>, keep: bool, rest: seq<T>, g: seq<nat>) returns (f: seq<nat>)
    requires xs != []
    requires |g| == |rest|
    requires forall i :: 0 <= i < |g| ==> g[i] < |xs| - 1 && rest[i] == xs[1..][g[i]]
    requires forall i, j :: 0 <= i < j < |g| ==> g[i] < g[j]
    ensures var r := if keep then [xs[0]] + rest else rest;
            |f| == |r|
            && (forall i :: 0 <= i < |f| ==> f[i] < |xs| && r[i] == xs[f[i]])
            && (forall i, j :: 0 <= i < j < |f| ==> f[i] < f[j])
  {
    var shifted := seq(|g|, i requires 0 <= i < |g| => g[i] + 1);
    assert forall i :: 0 <= i < |g| ==> rest[i] == xs[shifted[i]];
    if keep {
      f := [0] + shifted;
      assert forall i :: 0 < i < |f| ==> f[i] == shifted[i - 1];
    } else {
      f := shifted;
    }
  }

  /** `xs.findIndex(y => key(y) === id)`: the first position holding that id. */
  function IndexWhere<T>(xs: seq<T>, key: T -> string, id: string): (r: Option<nat>)
    ensures r.Some? ==> r.value < |xs| && key(xs[r.value]) == id
    ensures r.Some? ==> forall j :: 0 <= j < r.value ==> key(xs[j]) != id
    ensures r.None? ==> forall j :: 0 <= j < |xs| ==> key(xs[j]) != id
  {
    if xs == [] then None
    else if key(xs[0]) == id then Some(0)
    else match IndexWhere(xs[1..], key, id)
      case None => None
      case Some(k) => Some(k + 1)
  }

  /** Non-decreasing by `key`. */
  ghost predicate SortedBy<T>(s: seq<T>, key: T -> real) {
    forall i, j :: 0 <= i < j < |s| ==> key(s[i]) <= key(s[j])
  }

  /** Inserts `x` before the first element whose key is not below `key(x)`; since `x` comes
      earlier in the input than everything already in `s`, equal keys keep their input order. */
  function InsertByKey<T>(x: T, s: seq<T>, key: T -> real): (r: seq<T>)
    ensures |r| == |s| + 1
    ensures multiset(r) == multiset(s) + multiset{x}
  {
    if s == [] then [x]
    else if key(x) <= key(s[0]) then [x] + s
    else
      assert s == [s[0]] + s[1..];
      [s[0]] + InsertByKey(x, s[1..], key)
  }

  lemma {:induction false} InsertKeepsBound<T>(x: T, s: seq<T>, key: T -> real, b: real)
    requires b <= key(x)
    requires forall i :: 0 <= i < |s| ==> b <= key(s[i])
    ensures forall i :: 0 <= i < |InsertByKey(x, s, key)| ==> b <= key(InsertByKey(x, s, key)[i])
  {
    if s != [] && key(x) > key(s[0]) {
      InsertKeepsBound(x, s[1..], key, b);
    }
  }

  lemma {:induction false} InsertKeepsSorted<T>(x: T, s: seq<T>, key: T -> real)
    requires SortedBy(s, key)
    ensures SortedBy(InsertByKey(x, s, key), key)
  {
    if s != [] && key(x) > key(s[0]) {
      var rest := InsertByKey(x, s[1..], key);
      InsertKeepsSorted(x, s[1..], key);
      InsertKeepsBound(x, s[1..], key, key(s[0]));
      ConsKeepsSorted(s[0], rest, key);
    }
  }

  lemma ConsKeepsSorted<T>(x: T, s: seq<T>, key: T -> real)
    requires SortedBy(s, key)
    requires forall i :: 0 <= i < |s| ==> key(x) <= key(s[i])
    ensures SortedBy([x] + s, key)
  {
    var r := [x] + s;
    forall i, j | 0 <= i < j < |r| ensures key(r[i]) <= key(r[j]) {
      assert r[j] == s[j - 1];
      if i > 0 {
        assert r[i] == s[i - 1];
      }
    }
  }

  /** `[...xs].sort((a, b) => key(a) - key(b))`: JavaScript's sort is stable, and so is this
      insertion sort. */
  function SortByKey<T>(xs: seq<T>, key: T -> real): (r: seq<T>)
    ensures |r| == |xs|
    ensures multiset(r) == multiset(xs)
    ensures SortedBy(r, key)
  {
    if xs == [] then []
    else
      assert xs == [xs[0]] + xs[1..];
      InsertKeepsSorted(xs[0], SortByKey(xs[1..], key), key);
      InsertByKey(xs[0], SortByKey(xs[1..], key), key)
  }

  /** `xs.slice(0, n)`. */
  function Take<T>(xs: seq<T>, n: nat): (r: seq<T>)
    ensures |r| == Min(n, |xs|)
    ensures r == xs[..|r|]
  {
    if n <= |xs| then xs[..n] else xs
  }

  /** JavaScript's clamping of a `slice` bound: a negative bound counts from the end. */
  function SliceBound(k: int, len: nat): (r: nat)
    ensures r <= len
    ensures 0 <= k <= len ==> r == k
  {
    if k < 0 then Max(len + k, 0) else Min(k, len)
  }

  /** `xs.slice(start, end)`. */
  function Slice<T>(xs: seq<T>, start: int, end: int): (r: seq<T>)
    ensures |r| <= |xs|
    ensures 0 <= start <= end ==> |r| <= end - start
    ensures 0 <= start <= end <= |xs| ==> r == xs[start..end]
  {
    var s := SliceBound(start, |xs|);
    var e := SliceBound(end, |xs|);
    if s < e then xs[s..e] else []
  }

  /** A slice starting inside the sequence runs to its end bound, clamped to the length. */
  lemma SliceFrom<T>(xs: seq<T>, start: int, end: int)
    requires 0 <= start < |xs| && start <= end
    ensures Slice(xs, start, end) == xs[start..Min(end, |xs|)]
  {
  }

  function Flatten<T>(gs: seq<seq<T>>): seq<T> {
    if gs == [] then [] else gs[0] + Flatten(gs[1..])
  }

  /** Consecutive pieces of `n` elements, the last one possibly shorter. */
  function Chunks<T>(xs: seq<T>, n: nat): (r: seq<seq<T>>)
    requires n > 0
    ensures forall i :: 0 <= i < |r| ==> 1 <= |r[i]| <= n
    ensures forall i :: 0 <= i < |r| - 1 ==> |r[i]| == n
    decreases |xs|
  {
    if xs == [] then []
    else if |xs| <= n then [xs]
    else
      var rest := Chunks(xs[n..], n);
      assert forall i :: 0 < i < |[xs[..n]] + rest| ==> ([xs[..n]] + rest)[i] == rest[i - 1];
      [xs[..n]] + rest
  }

  /** The chunks, put back together, are the input. */
  lemma {:induction false} ChunksFlatten<T>(xs: seq<T>, n: nat)
    requires n > 0
    ensures Flatten(Chunks(xs, n)) == xs
    decreases |xs|
  {
    if xs == [] {
    } else if |xs| <= n {
      assert Flatten([xs]) == xs + Flatten([]);
    } else {
      var rest := Chunks(xs[n..], n);
      ChunksFlatten(xs[n..], n);
      assert ([xs[..n]] + rest)[1..] == rest;
      assert Flatten([xs[..n]] + rest) == xs[..n] + Flatten(rest);
      assert xs == xs[..n] + xs[n..];
    }
  }

  /** Filtering a concatenation filters each part. */
  lemma {:induction false} FilterConcat<T(!new)>(a: seq<T>, b: seq<T>, p: T -> bool)
    ensures Filter(a + b, p) == Filter(a, p) + Filter(b, p)
  {
    if a == [] {
      assert a + b == b;
    } else {
      assert (a + b)[0] == a[0];
      assert (a + b)[1..] == a[1..] + b;
      FilterConcat(a[1..], b, p);
    }
  }

  /** `k * n`, spelled as repeated addition. */
  function Offset(k: nat, n: nat): nat {
    if k == 0 then 0 else Offset(k - 1, n) + n
  }

  lemma {:induction false} OffsetIsProduct(k: nat, n: nat)
    ensures Offset(k, n) == k * n
  {
    if k > 0 {
      OffsetIsProduct(k - 1, n);
      assert (k - 1) * n + n == k * n;
    }
  }

  /** Past the first chunk, the chunks are those of the rest. */
  lemma ChunksStep<T>(xs: seq<T>, n: nat)
    requires n > 0 && |xs| > n
    ensures Chunks(xs, n) == [xs[..n]] + Chunks(xs[n..], n)
  {
  }

  lemma SliceOfDrop<T>(xs: seq<T>, n: nat, lo: nat, hi: nat)
    requires n <= lo <= hi <= |xs|
    ensures xs[n..][lo - n..hi - n] == xs[lo..hi]
  {
  }

  /** Chunk `k` holds the elements from `k * n` up to the next multiple of `n`, or to the
      end. */
  lemma {:induction false} ChunkAt<T>(xs: seq<T>, n: nat, k: nat)
    requires n > 0 && Offset(k, n) < |xs|
    ensures k < |Chunks(xs, n)|
    ensures Chunks(xs, n)[k] == xs[Offset(k, n)..Min(Offset(k, n) + n, |xs|)]
    decreases k
  {
    if k > 0 {
      var lo, hi := Offset(k, n), Min(Offset(k, n) + n, |xs|);
      var rest := xs[n..];
      ChunksStep(xs, n);
      ChunkAt(rest, n, k - 1);
      assert Chunks(xs, n)[k] == Chunks(rest, n)[k - 1];
      assert Chunks(rest, n)[k - 1] == rest[lo - n..hi - n];
      SliceOfDrop(xs, n, lo, hi);
    }
  }

  /** There are as many chunks as it takes to cover `xs` in pieces of `n`: the ceiling of
      `|xs| / n`. */
  lemma {:induction false} ChunkCount<T>(xs: seq<T>, n: nat)
    requires n > 0
    ensures |Chunks(xs, n)| * n >= |xs|
    ensures xs == [] <==> |Chunks(xs, n)| == 0
    ensures xs != [] ==> (|Chunks(xs, n)| - 1) * n < |xs|
    decreases |xs|
  {
    if |xs| > n {
      ChunkCount(xs[n..], n);
      var c := |Chunks(xs[n..], n)|;
      assert |Chunks(xs, n)| == c + 1;
      assert (c + 1) * n == c * n + n;
      assert c * n == (c - 1) * n + n;
    }
  }

  /** `xs.map(y => key(y) === id ? x : y)`: every element with that id becomes `x`. */
  function ReplaceWhere<T>(xs: seq<T>, key: T -> string, id: string, x: T): (r: seq<T>)
    ensures |r| == |xs|
    ensures forall i :: 0 <= i < |xs| && key(xs[i]) == id ==> r[i] == x
    ensures forall i :: 0 <= i < |xs| && key(xs[i]) != id ==> r[i] == xs[i]
  {
    seq(|xs|, i requires 0 <= i < |xs| => if key(xs[i]) == id then x else xs[i])
  }

  /** `xs.filter(y => key(y) !== id)`. */
  function RemoveWhere<T(!new)>(xs: seq<T>, key: T -> string, id: string): (r: seq<T>)
    ensures forall i :: 0 <= i < |r| ==> key(r[i]) != id
    ensures forall y :: y in r <==> y in xs && key(y) != id
    ensures IsSubsequence(r, xs)
  {
    Filter(xs, KeyIsNot(key, id))
  }

  /** `y => key(y) !== id`. */
  function KeyIsNot<T>(key: T -> string, id: string): T -> bool {
    y => key(y) != id
  }

  /** Where each record kept by `RemoveWhere` came from: increasing positions of `xs`. */
  lemma RemoveWhereIndices<T(!new)>(xs: seq<T>, key: T -> string, id: string) returns (f: seq<nat>)
    ensures |f| == |RemoveWhere(xs, key, id)|
    ensures forall i :: 0 <= i < |f| ==> f[i] < |xs| && RemoveWhere(xs, key, id)[i] == xs[f[i]]
    ensures forall i, j :: 0 <= i < j < |f| ==> f[i] < f[j]
  {
    f := FilterIndices(xs, KeyIsNot(key, id));
  }

  /** Removing a key that occurs last: what is before it stays. */
  lemma RemoveAppended<T(!new)>(xs: seq<T>, key: T -> string, x: T)
    requires forall i :: 0 <= i < |xs| ==> key(xs[i]) != key(x)
    ensures RemoveWhere(xs + [x], key, key(x)) == xs
    ensures RemoveWhere([x] + xs, key, key(x)) == xs
  {
    var p := KeyIsNot(key, key(x));
    FilterKeepsAll(xs, p);
    FilterConcat(xs, [x], p);
    FilterConcat([x], xs, p);
    assert Filter([x], p) == [];
  }
}

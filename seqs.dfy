/** The array primitives the board store is built from, as functions on
    sequences: `findIndex`, `map` with a matching test, `filter`, and the two
    uses of `splice` (remove one element, insert one element). */
module Seqs {
  import opened Types

  /** `findIndex`: the position of the FIRST element satisfying `p`, or none. */
  function FindIndex<T>(s: seq<T>, p: T -> bool): (r: Option<nat>)
    ensures r.Some? ==> r.value < |s| && p(s[r.value])
    ensures r.Some? ==> forall k :: 0 <= k < r.value ==> !p(s[k])
    ensures r.None? <==> forall k :: 0 <= k < |s| ==> !p(s[k])
  {
    if |s| == 0 then None
    else if p(s[0]) then Some(0)
    else match FindIndex(s[1..], p)
      case None => None
      case Some(k) => Some(k + 1)
  }

  /** `s.map(x => p(x) ? f(x) : x)`: every matching element is rewritten,
      every other one is kept as it is. */
  function MapIf<T>(s: seq<T>, p: T -> bool, f: T -> T): (r: seq<T>)
    ensures |r| == |s|
    ensures forall i :: 0 <= i < |s| && p(s[i]) ==> r[i] == f(s[i])
    ensures forall i :: 0 <= i < |s| && !p(s[i]) ==> r[i] == s[i]
    ensures (forall i :: 0 <= i < |s| ==> !p(s[i])) ==> r == s
  {
    seq(|s|, i requires 0 <= i < |s| => if p(s[i]) then f(s[i]) else s[i])
  }

  /** `s.filter(keep)`: the elements satisfying `keep`, in their order. */
  function Filter<T>(s: seq<T>, keep: T -> bool): (r: seq<T>)
    ensures |r| <= |s|
    ensures forall k :: 0 <= k < |r| ==> r[k] in s && keep(r[k])
    ensures forall k :: 0 <= k < |s| && keep(s[k]) ==> s[k] in r
    ensures (forall i :: 0 <= i < |s| ==> keep(s[i])) ==> r == s
  {
    if |s| == 0 then []
    else (if keep(s[0]) then [s[0]] else []) + Filter(s[1..], keep)
  }

  /** Filtering distributes over concatenation: the kept elements stay in
      their relative order. */
  lemma {:induction false} FilterConcat<T>(a: seq<T>, b: seq<T>, keep: T -> bool)
    ensures Filter(a + b, keep) == Filter(a, keep) + Filter(b, keep)
  {
    if |a| == 0 {
      assert a + b == b;
    } else {
      assert (a + b)[1..] == a[1..] + b;
      FilterConcat(a[1..], b, keep);
    }
  }

  /** The position `splice(j, 0, x)` inserts at: an index past the end
      appends. */
  function Clamp(j: nat, n: nat): (k: nat)
    ensures k <= n
    ensures k == j || (j > n && k == n)
  {
    if j <= n then j else n
  }

  /** `splice(i, 1)` on an in-range index: the element at `i` is removed and
      the rest close up. */
  function RemoveAt<T>(s: seq<T>, i: nat): (r: seq<T>)
    requires i < |s|
    ensures |r| == |s| - 1
    ensures forall k :: 0 <= k < i ==> r[k] == s[k]
    ensures forall k :: i <= k < |r| ==> r[k] == s[k + 1]
    ensures multiset(r) + multiset{s[i]} == multiset(s)
  {
    assert s == s[..i] + [s[i]] + s[i + 1..];
    s[..i] + s[i + 1..]
  }

  /** `splice(j, 0, x)`: `x` is inserted before position `j`, or appended
      when `j` is past the end. */
  function InsertAt<T>(s: seq<T>, j: nat, x: T): (r: seq<T>)
    ensures |r| == |s| + 1
    ensures r[Clamp(j, |s|)] == x
    ensures forall k :: 0 <= k < Clamp(j, |s|) ==> r[k] == s[k]
    ensures forall k :: Clamp(j, |s|) < k < |r| ==> r[k] == s[k - 1]
    ensures multiset(r) == multiset(s) + multiset{x}
  {
    var k := Clamp(j, |s|);
    assert s == s[..k] + s[k..];
    s[..k] + [x] + s[k..]
  }

  /** Remove the element at `i`, then insert it at `j` counted in the
      shortened sequence. */
  function Move<T>(s: seq<T>, i: nat, j: nat): (r: seq<T>)
    requires i < |s|
    ensures |r| == |s|
    ensures multiset(r) == multiset(s)
    ensures r[Clamp(j, |s| - 1)] == s[i]
  {
    InsertAt(RemoveAt(s, i), j, s[i])
  }

  /** Putting a removed element back where it was restores the sequence. */
  lemma InsertRemoved<T>(s: seq<T>, i: nat)
    requires i < |s|
    ensures InsertAt(RemoveAt(s, i), i, s[i]) == s
  {
  }

  /** Removing an element where it was just inserted restores the sequence. */
  lemma RemoveInserted<T>(s: seq<T>, j: nat, x: T)
    ensures RemoveAt(InsertAt(s, j, x), Clamp(j, |s|)) == s
  {
  }

  /** A move is undone by the move from where the element landed back to
      where it came from. */
  lemma MoveUndone<T>(s: seq<T>, i: nat, j: nat)
    requires i < |s|
    ensures Move(Move(s, i, j), Clamp(j, |s| - 1), i) == s
  {
  }
}

/** The `Vec` operations the pallet applies to a club's member list. */
module Lists {

  /** `Vec::push`: appends `x`, keeping every earlier element in place. */
  function Push<T>(s: seq<T>, x: T): (r: seq<T>)
    ensures |r| == |s| + 1
    ensures forall j :: 0 <= j < |s| ==> r[j] == s[j]
    ensures r[|s|] == x
  {
    s + [x]
  }

  /** Pushing adds exactly one occurrence of `x`, so pushing a present element duplicates it. */
  lemma PushCounts<T>(s: seq<T>, x: T)
    ensures multiset(Push(s, x)) == multiset(s) + multiset{x}
    ensures x in s ==> multiset(Push(s, x))[x] >= 2
  {
  }

  /**
    `r` is `s` without its element at position `i`: the elements before `i`
    stay where they were and the ones after it move one place left.
   */
  ghost predicate RemovedAt<T>(r: seq<T>, s: seq<T>, i: nat)
  {
    i < |s| && |r| == |s| - 1 && r[..i] == s[..i] && r[i..] == s[i + 1..]
  }

  /**
    `Vec::remove(index)`: drops the element at `i` and shifts the rest left.
    The Rust call panics when `i` is out of bounds, hence the precondition.
   */
  function RemoveAt<T>(s: seq<T>, i: nat): (r: seq<T>)
    requires i < |s|
    ensures |r| == |s| - 1
    ensures forall j :: 0 <= j < i ==> r[j] == s[j]
    ensures forall j :: i <= j < |r| ==> r[j] == s[j + 1]
    ensures multiset(r) == multiset(s) - multiset{s[i]}
    ensures RemovedAt(r, s, i)
  {
    assert s == s[..i] + [s[i]] + s[i + 1..];
    s[..i] + s[i + 1..]
  }

  /**
    The positions of `s` that hold `x`, in ascending order: the indices at
    which a walk over `s` with a running index finds `x`.
   */
  function MatchIndices<T(==)>(s: seq<T>, x: T): (idx: seq<nat>)
    ensures forall k :: 0 <= k < |idx| ==> idx[k] < |s| && s[idx[k]] == x
    ensures forall k :: 0 < k < |idx| ==> idx[k - 1] < idx[k]
    ensures forall i :: 0 <= i < |s| && s[i] == x ==> i in idx
  {
    if s == [] then
      []
    else
      var n := |s| - 1;
      var rest := MatchIndices(s[..n], x);
      if s[n] == x then rest + [n] else rest
  }

  /** The walk finds `x` exactly as often as `x` occurs in `s`. */
  lemma {:induction false} MatchIndicesCount<T>(s: seq<T>, x: T)
    ensures |MatchIndices(s, x)| == multiset(s)[x]
  {
    if s != [] {
      var n := |s| - 1;
      MatchIndicesCount(s[..n], x);
      assert s == s[..n] + [s[n]];
    }
  }
}

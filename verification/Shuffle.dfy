/** `shuffle` of the conformance tester (`cmd/conformance-tests/main.go`). It takes elements out
    of its argument with `append(vals[:i], vals[i+1:]...)`, which overwrites the caller's array
    while the shuffle goes on.
 */
module Shuffle {

  /** What `append(vals[:i], vals[i+1:]...)` leaves in the slice. */
  function Without<T>(s: seq<T>, i: nat): (r: seq<T>)
    requires i < |s|
    ensures |r| == |s| - 1
  {
    s[..i] + s[i + 1..]
  }

  /** Random indices that fit: the k-th is below the number of elements still there. */
  predicate Fits(indices: seq<nat>, n: nat) {
    |indices| == n && forall k :: 0 <= k < n ==> indices[k] < n - k
  }

  function Shuffled<T>(s: seq<T>, indices: seq<nat>): (r: seq<T>)
    requires Fits(indices, |s|)
  {
    if s == [] then [] else [s[indices[0]]] + Shuffled(Without(s, indices[0]), indices[1..])
  }

  /** The shift within the array: elements after the one taken out move up by one. */
  method TakeOut<T>(vals: array<T>, len: nat, i: nat)
    requires i < len <= vals.Length
    modifies vals
    ensures vals[..len - 1] == Without(old(vals[..len]), i)
    ensures vals[len - 1..] == old(vals[len - 1..])
  {
    for k := i to len - 1
      invariant forall j :: 0 <= j < i ==> vals[j] == old(vals[j])
      invariant forall j :: i <= j < k ==> vals[j] == old(vals[j + 1])
      invariant forall j :: k <= j < vals.Length ==> vals[j] == old(vals[j])
    {
      vals[k] := vals[k + 1];
    }
  }

  /** One round: the element at the random index goes to the result and out of the slice. */
  method Draw<T>(vals: array<T>, len: nat, ret: array<T>, i: nat, randIndex: nat)
    requires randIndex < len <= vals.Length && i < ret.Length && vals != ret
    modifies vals, ret
    ensures vals[..len - 1] == Without(old(vals[..len]), randIndex)
    ensures ret[..i + 1] == old(ret[..i]) + [old(vals[randIndex])]
  {
    ret[i] := vals[randIndex];
    TakeOut(vals, len, randIndex);
  }

  /** The result is what `Shuffled` makes of the original elements, although the array they came
      in is overwritten on the way.
   */
  method ShuffleInPlace<T(0)>(vals: array<T>, indices: seq<nat>) returns (ret: array<T>)
    requires Fits(indices, vals.Length)
    modifies vals
    ensures fresh(ret) && ret[..] == Shuffled(old(vals[..]), indices)
    ensures multiset(ret[..]) == multiset(old(vals[..]))
  {
    var n := vals.Length;
    ret := new T[n];
    assert vals[..n] == vals[..] && indices[0..] == indices;
    for i := 0 to n
      invariant fresh(ret) && ret.Length == n
      invariant Fits(indices[i..], n - i)
      invariant ret[..i] + Shuffled(vals[..n - i], indices[i..]) == Shuffled(old(vals[..]), indices)
    {
      ghost var out, left := ret[..i], vals[..n - i];
      assert indices[i..][0] == indices[i] && indices[i..][1..] == indices[i + 1..];
      OneTaken(out, left, indices[i..]);
      Draw(vals, n - i, ret, i, indices[i]);
      assert vals[..n - i - 1] == Without(left, indices[i]);
    }
    assert ret[..n] == ret[..];
    ShuffleIsPermutation(old(vals[..]), indices);
  }

  lemma OneTaken<T>(out: seq<T>, s: seq<T>, indices: seq<nat>)
    requires Fits(indices, |s|) && s != []
    ensures Fits(indices[1..], |s| - 1)
    ensures out + Shuffled(s, indices) == out + [s[indices[0]]] + Shuffled(Without(s, indices[0]), indices[1..])
  {
  }

  /** A shuffle is a permutation, for every sequence of random indices. */
  lemma {:induction false} ShuffleIsPermutation<T>(s: seq<T>, indices: seq<nat>)
    requires Fits(indices, |s|)
    ensures multiset(Shuffled(s, indices)) == multiset(s)
  {
    if s != [] {
      var i := indices[0];
      ShuffleIsPermutation(Without(s, i), indices[1..]);
      WithoutElements(s, i);
    }
  }

  lemma WithoutElements<T>(s: seq<T>, i: nat)
    requires i < |s|
    ensures multiset(Without(s, i)) == multiset(s) - multiset{s[i]}
  {
    assert s == s[..i] + [s[i]] + s[i + 1..];
  }

  /** And every permutation can come out. */
  lemma {:induction false} EveryPermutationIsReached<T>(s: seq<T>, t: seq<T>) returns (indices: seq<nat>)
    requires multiset(s) == multiset(t)
    ensures Fits(indices, |s|) && Shuffled(s, indices) == t
  {
    if s == [] {
      assert |multiset(t)| == |t|;
      indices := [];
    } else {
      var i := FirstOf(s, t);
      var rest := EveryPermutationIsReached(Without(s, i), t[1..]);
      indices := [i] + rest;
      assert indices[1..] == rest;
    }
  }

  /** Where the first element of a permutation comes from. */
  lemma FirstOf<T>(s: seq<T>, t: seq<T>) returns (i: nat)
    requires multiset(s) == multiset(t) && s != []
    ensures i < |s| && t != [] && s[i] == t[0]
    ensures multiset(Without(s, i)) == multiset(t[1..])
  {
    assert |multiset(s)| == |s| && |multiset(t)| == |t|;
    assert t[0] in multiset(s);
    i :| 0 <= i < |s| && s[i] == t[0];
    WithoutElements(s, i);
    WithoutElements(t, 0);
    assert Without(t, 0) == t[1..];
  }
}

/**
Optional values, machine integers and a few facts about lists, shared by every module of the
model. Integers are unbounded here, so each type names the range its source type has, and every
cast that can lose bits is written out where it happens.
*/
module Options {
  datatype Option<+T> = None | Some(value: T)

  type U8 = x: int | 0 <= x < 0x100
  type U16 = x: int | 0 <= x < 0x1_0000
  type U32 = x: int | 0 <= x < 0x1_0000_0000

  function Reverse<T>(s: seq<T>): (r: seq<T>)
    ensures |r| == |s|
    ensures forall i :: 0 <= i < |s| ==> r[i] == s[|s| - 1 - i]
  {
    if s == [] then [] else Reverse(s[1..]) + [s[0]]
  }

  /** Permutations stay permutations without a common element. */
  lemma TakeOneOut<T>(a: seq<T>, b: seq<T>, i: nat)
    requires a != [] && i < |b| && b[i] == a[0] && multiset(a) == multiset(b)
    ensures multiset(a[1..]) == multiset(b[..i] + b[i + 1..])
  {
    assert a == [a[0]] + a[1..];
    assert b == b[..i] + ([b[i]] + b[i + 1..]);
    assert multiset(a) == multiset{a[0]} + multiset(a[1..]);
    var rest := multiset(b[..i] + b[i + 1..]);
    assert multiset(b) == multiset{b[i]} + rest;
    assert multiset(a[1..]) == multiset(a) - multiset{a[0]} && rest == multiset(b) - multiset{b[i]};
  }
}

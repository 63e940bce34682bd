/**
The slab container: values under small keys, where the key freed last is handed out first. Two
slabs that have seen the same insertions and removals hand out the same keys from then on, which
is what keeps the seat and channel tables of a room together.
*/
module Slabs {
  import opened Options

  datatype Slab<T> = Slab(entries: seq<Option<T>>, free: seq<nat>)

  function Get<T>(s: Slab<T>, key: nat): Option<T> {
    if key < |s.entries| then s.entries[key] else None
  }

  /** The key the next insertion gets. */
  function VacantKey<T>(s: Slab<T>): nat {
    if s.free == [] then |s.entries| else s.free[0]
  }

  /** The free list holds exactly the vacant keys, each once. */
  ghost predicate Chained<T>(s: Slab<T>) {
    && (forall i :: 0 <= i < |s.free| ==> s.free[i] < |s.entries| && s.entries[s.free[i]].None?)
    && (forall key :: 0 <= key < |s.entries| && s.entries[key].None? ==> key in s.free)
    && (forall i, j :: 0 <= i < j < |s.free| ==> s.free[i] != s.free[j])
  }

  function Insert<T>(s: Slab<T>, value: T): Slab<T>
    requires Chained(s)
  {
    if s.free == [] then Slab(s.entries + [Some(value)], [])
    else Slab(s.entries[s.free[0] := Some(value)], s.free[1..])
  }

  /** Removal of the key if it is occupied. */
  function TryRemove<T>(s: Slab<T>, key: nat): Slab<T> {
    if Get(s, key).None? then s else Slab(s.entries[key := None], [key] + s.free)
  }

  /** Removal of a key that must be occupied: the container panics on a vacant one. */
  function Remove<T>(s: Slab<T>, key: nat): Slab<T>
    requires Get(s, key).Some?
  {
    TryRemove(s, key)
  }

  predicate IsEmpty<T>(s: Slab<T>) {
    forall i :: 0 <= i < |s.entries| ==> s.entries[i].None?
  }

  lemma InsertGets<T>(s: Slab<T>, value: T)
    requires Chained(s)
    ensures var r := Insert(s, value);
      && Chained(r) && Get(s, VacantKey(s)).None?
      && (forall key: nat :: Get(r, key) == if key == VacantKey(s) then Some(value) else Get(s, key))
  {
    var r := Insert(s, value);
    if s.free != [] {
      forall key | 0 <= key < |r.entries| && r.entries[key].None? ensures key in r.free {
        assert key in s.free && key != s.free[0];
      }
    }
  }

  lemma InsertSize<T>(s: Slab<T>, value: T)
    requires Chained(s)
    ensures |Insert(s, value).entries| == if VacantKey(s) < |s.entries| then |s.entries| else VacantKey(s) + 1
    ensures VacantKey(s) <= |s.entries|
  {
  }

  lemma RemoveGets<T>(s: Slab<T>, key: nat)
    requires Chained(s)
    ensures var r := TryRemove(s, key);
      && Chained(r)
      && (forall k: nat :: Get(r, k) == if k == key then None else Get(s, k))
      && (Get(s, key).Some? ==> VacantKey(r) == key)
  {
  }

  /** Two slabs with the same keys in use that hand out the same keys from now on. */
  ghost predicate Twins<T, U>(s: Slab<T>, t: Slab<U>) {
    && s.free == t.free && |s.entries| == |t.entries|
    && forall i :: 0 <= i < |s.entries| ==> (s.entries[i].Some? <==> t.entries[i].Some?)
  }

  lemma TwinsInsert<T, U>(s: Slab<T>, t: Slab<U>, value: T, other: U)
    requires Chained(s) && Chained(t) && Twins(s, t)
    ensures Twins(Insert(s, value), Insert(t, other)) && VacantKey(s) == VacantKey(t)
  {
  }

  lemma TwinsRemove<T, U>(s: Slab<T>, t: Slab<U>, key: nat)
    requires Twins(s, t)
    ensures Twins(TryRemove(s, key), TryRemove(t, key)) && (Get(s, key).Some? <==> Get(t, key).Some?)
  {
  }
}

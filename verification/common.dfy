// Shared vocabulary: optional values and insertion-ordered dictionaries.

module Options {
  datatype Option<+T> = None | Some(value: T)
}

/** Python's dict keeps its keys in insertion order, and the source evicts `next(iter(d))`.
    A Dict therefore carries that order beside the mapping. */
module OrderedDicts {
  import opened Options

  function Without<K(==, !new)>(keys: seq<K>, k: K): (r: seq<K>)
    requires forall i, j :: 0 <= i < j < |keys| ==> keys[i] != keys[j]
    ensures forall x :: x in r <==> x in keys && x != k
    ensures forall i, j :: 0 <= i < j < |r| ==> r[i] != r[j]
    ensures |r| == if k in keys then |keys| - 1 else |keys|
  {
    if keys == [] then []
    else if keys[0] == k then keys[1..]
    else
      var rest := Without(keys[1..], k);
      assert forall x :: x in keys <==> x == keys[0] || x in keys[1..];
      assert keys[0] !in rest;
      assert forall j :: 0 <= j < |rest| ==> rest[j] in rest;
      [keys[0]] + rest
  }

  datatype Dict<K(==, !new), V> = Dict(order: seq<K>, entries: map<K, V>) {

    ghost predicate Valid() {
      && (forall i, j :: 0 <= i < j < |order| ==> order[i] != order[j])
      && (forall k :: k in order <==> k in entries)
    }

    /** d[k] = v: an existing key keeps its place, a new one goes to the end. */
    function Put(k: K, v: V): (d: Dict<K, V>)
      requires Valid()
      ensures d.Valid() && d.entries == entries[k := v]
      ensures |d.order| == if k in entries then |order| else |order| + 1
    {
      Dict(if k in entries then order else order + [k], entries[k := v])
    }

    /** d.pop(k, None) */
    function Pop(k: K): (d: Dict<K, V>)
      requires Valid()
      ensures d.Valid() && d.entries == entries - {k}
      ensures |d.order| == if k in entries then |order| - 1 else |order|
    {
      Dict(Without(order, k), entries - {k})
    }
  }

  function Empty<K(==, !new), V>(): (d: Dict<K, V>)
    ensures d.Valid() && d.entries == map[] && d.order == []
  {
    Dict([], map[])
  }
}

/** Runs of a state machine, and the states they reach. */
module Machines {
  function Fold<S, E>(step: (S, E) -> S, s: S, events: seq<E>): S
    decreases |events|
  {
    if events == [] then s else Fold(step, step(s, events[0]), events[1..])
  }

  ghost predicate Reachable<S, E(!new)>(step: (S, E) -> S, start: S, s: S) {
    exists events: seq<E> :: Fold(step, start, events) == s
  }

  lemma {:induction false} FoldAppend<S, E>(step: (S, E) -> S, s: S, events: seq<E>, e: E)
    ensures Fold(step, s, events + [e]) == step(Fold(step, s, events), e)
    decreases |events|
  {
    if events == [] {
      assert events + [e] == [e];
      assert Fold(step, s, [e]) == Fold(step, step(s, e), []);
    } else {
      assert (events + [e])[1..] == events[1..] + [e];
      FoldAppend(step, step(s, events[0]), events[1..], e);
    }
  }

  lemma StartIsReachable<S, E(!new)>(step: (S, E) -> S, start: S)
    ensures Reachable(step, start, start)
  {
    var none: seq<E> := [];
    assert Fold(step, start, none) == start;
  }

  lemma Follows<S, E(!new)>(step: (S, E) -> S, start: S, s: S, e: E) returns (t: S)
    requires Reachable(step, start, s)
    ensures t == step(s, e) && Reachable(step, start, t)
  {
    var events: seq<E> :| Fold(step, start, events) == s;
    FoldAppend(step, start, events, e);
    t := step(s, e);
  }

  lemma {:induction false} FoldConcat<S, E>(step: (S, E) -> S, s: S, first: seq<E>, second: seq<E>)
    ensures Fold(step, s, first + second) == Fold(step, Fold(step, s, first), second)
    decreases |first|
  {
    if first == [] {
      assert first + second == second;
    } else {
      assert (first + second)[1..] == first[1..] + second;
      FoldConcat(step, step(s, first[0]), first[1..], second);
    }
  }

  lemma Onwards<S, E(!new)>(step: (S, E) -> S, start: S, s: S, t: S)
    requires Reachable(step, start, s) && Reachable(step, s, t)
    ensures Reachable(step, start, t)
  {
    var first: seq<E> :| Fold(step, start, first) == s;
    var second: seq<E> :| Fold(step, s, second) == t;
    FoldConcat(step, start, first, second);
  }
}

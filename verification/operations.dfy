/** The per-user operation table of the Telegram plugin: one generation counter and at most one
    active operation a user. Each method is one lock section of the source. */
module OperationTables {
  import opened Options
  import opened OrderedDicts

  const MAX_USERS: nat := 4096

  type User = nat

  datatype Active = Active(generation: int, action: string)

  datatype Table = Table(generations: Dict<User, int>, active: map<User, Active>) {

    function Counter(u: User): int {
      if u in generations.entries then generations.entries[u] else 0
    }

    /** An active entry always carries its user's current generation. */
    ghost predicate Coherent() {
      && generations.Valid()
      && forall u :: u in active ==> u in generations.entries && active[u].generation == generations.entries[u]
    }
  }

  const EMPTY_TABLE := Table(Empty(), map[])

  /** The first tracked user, in insertion order, with no active operation. */
  function FirstIdle(order: seq<User>, active: map<User, Active>): (r: Option<User>)
    ensures r.Some? ==> r.value in order && r.value !in active
    ensures r.None? ==> forall u :: u in order ==> u in active
  {
    if order == [] then None
    else if order[0] !in active then Some(order[0])
    else FirstIdle(order[1..], active)
  }

  /** The user whose counter a reservation by `u` forgets, when the table is full. */
  function Evicted(t: Table, u: User): Option<User> {
    if u !in t.generations.entries && |t.generations.order| >= MAX_USERS && u !in t.active
    then FirstIdle(t.generations.order, t.active)
    else None
  }

  function Invalidated(t: Table, u: User): Table
    requires t.generations.Valid()
  {
    Table(t.generations.Put(u, t.Counter(u) + 1), t.active - {u})
  }

  function Reserved(t: Table, u: User, action: string): (Table, Option<int>)
    requires t.generations.Valid()
  {
    if u in t.active && t.active[u].action == action then (t, None)
    else
      var t1 := if u in t.active then Invalidated(t, u) else t;
      var evicted := Evicted(t1, u);
      var t2 := if evicted.Some? then t1.(generations := t1.generations.Pop(evicted.value)) else t1;
      if u !in t1.generations.entries && |t2.generations.order| >= MAX_USERS then (t2, None)
      else
        var g := t2.Counter(u) + 1;
        (Table(t2.generations.Put(u, g), t2.active[u := Active(g, action)]), Some(g))
  }

  predicate IsCurrent(t: Table, u: User, g: int) {
    && u in t.generations.entries && t.generations.entries[u] == g
    && u in t.active && t.active[u].generation == g
  }

  function Finished(t: Table, u: User, g: int): Table {
    if IsCurrent(t, u, g) then t.(active := t.active - {u}) else t
  }

  lemma GrantIsCoherent(t: Table, u: User, g: int, action: string)
    requires t.Coherent()
    ensures Table(t.generations.Put(u, g), t.active[u := Active(g, action)]).Coherent()
  {
  }

  class OperationTable {
    var generations: Dict<User, int>
    var active: map<User, Active>

    function Snapshot(): Table
      reads this
    {
      Table(generations, active)
    }

    constructor ()
      ensures Snapshot() == EMPTY_TABLE
    {
      generations, active := Empty(), map[];
    }

    /** Drops the counter of the first tracked user with no active operation, if there is one. */
    method ForgetFirstIdle()
      requires Snapshot().Coherent()
      modifies this`generations
      ensures Snapshot().Coherent()
      ensures var idle := FirstIdle(old(generations.order), active);
              generations == if idle.Some? then old(generations).Pop(idle.value) else old(generations)
    {
      ghost var order := generations.order;
      var i := 0;
      while i < |generations.order|
        invariant 0 <= i <= |order| && generations == old(generations)
        invariant FirstIdle(order[i..], active) == FirstIdle(order, active)
      {
        var tracked := generations.order[i];
        if tracked !in active {
          generations := generations.Pop(tracked);
          return;
        }
        i := i + 1;
      }
    }

    /** A full table forgets an idle user's counter before it tracks a new user. */
    method MakeRoom(u: User) returns (room: bool)
      requires Snapshot().Coherent() && u !in active
      modifies this`generations
      ensures Snapshot().Coherent()
      ensures var evicted := Evicted(old(Snapshot()), u);
              generations == if evicted.Some? then old(generations).Pop(evicted.value) else old(generations)
      ensures room <==> u in old(generations).entries || |generations.order| < MAX_USERS
    {
      if u !in generations.entries && |generations.order| >= MAX_USERS {
        ForgetFirstIdle();
        return |generations.order| < MAX_USERS;
      }
      return true;
    }

    /** The generation granted to a new operation, or None when the same action already runs or
        no counter can be freed. */
    method Reserve(u: User, action: string) returns (r: Option<int>)
      requires Snapshot().Coherent()
      modifies this
      ensures Snapshot().Coherent()
      ensures (Snapshot(), r) == Reserved(old(Snapshot()), u, action)
    {
      if u in active {
        if active[u].action == action {
          return None;
        }
        Invalidate(u);
      }
      ghost var t1 := Snapshot();
      assert t1 == if u in old(active) then Invalidated(old(Snapshot()), u) else old(Snapshot());
      var room := MakeRoom(u);
      if !room {
        return None;
      }
      var generation := Snapshot().Counter(u) + 1;
      GrantIsCoherent(Snapshot(), u, generation, action);
      generations := generations.Put(u, generation);
      active := active[u := Active(generation, action)];
      return Some(generation);
    }

    method Invalidate(u: User)
      requires Snapshot().Coherent()
      modifies this
      ensures Snapshot().Coherent()
      ensures Snapshot() == Invalidated(old(Snapshot()), u)
    {
      generations := generations.Put(u, Snapshot().Counter(u) + 1);
      active := active - {u};
    }

    /** Only the operation that is still current ends its user's entry. */
    method Finish(u: User, generation: int) returns (done: bool)
      requires Snapshot().Coherent()
      modifies this
      ensures Snapshot().Coherent()
      ensures done == IsCurrent(old(Snapshot()), u, generation)
      ensures Snapshot() == Finished(old(Snapshot()), u, generation)
    {
      done := IsCurrent(Snapshot(), u, generation);
      if done {
        active := active - {u};
      }
    }
  }

  /** A granted reservation replaces only its own user's entry, under a generation never used by that
      user since its counter was last forgotten. */
  lemma ReservedGrants(t: Table, u: User, action: string)
    requires t.Coherent() && Reserved(t, u, action).1.Some?
    ensures var (after, g) := Reserved(t, u, action);
            && t.Counter(u) < g.value == after.Counter(u)
            && after.active == t.active[u := Active(g.value, action)]
  {
    if u in t.active {
      TrackedGrants(t, u, action);
    }
  }

  lemma TrackedGrants(t: Table, u: User, action: string)
    requires t.Coherent() && u in t.active && t.active[u].action != action
    ensures Reserved(t, u, action)
         == (Table(t.generations.Put(u, t.Counter(u) + 1).Put(u, t.Counter(u) + 2),
                   t.active[u := Active(t.Counter(u) + 2, action)]), Some(t.Counter(u) + 2))
  {
    var t1 := Invalidated(t, u);
    assert t1.Counter(u) == t.Counter(u) + 1 && Evicted(t1, u).None?;
    assert (t.active - {u})[u := Active(t.Counter(u) + 2, action)] == t.active[u := Active(t.Counter(u) + 2, action)];
  }
}

/** Worker threads racing with navigation: every interleaving of the lock sections of
    `_start_chat_operation`, `_start_telegram_background_operation` and its worker. */
module OperationRuns {
  import opened Options
  import opened OrderedDicts
  import opened OperationTables

  /** Where one started operation is. Reserved, Working, Failed and Returned hold a generation. */
  datatype Phase =
    | Entered    // the chat slot, if one is needed, is taken
    | Refusing   // the table refused a generation; the slot is still to be released
    | Reserved   // holds a generation, not yet handed to a worker thread
    | Working    // the worker runs `work`
    | Failed     // the worker could not be scheduled; the slot is released
    | Returned   // `work` is over and the slot released; the result is not yet delivered
    | Refused
    | Aborted
    | Finished

  /** `superseded` and `sent` are history: whether a later reservation or an invalidation of the same
      user came after this operation's own reservation, and how often its result was sent. */
  datatype Operation = Operation(user: User, action: string, chat: bool, phase: Phase,
                                 generation: int, superseded: bool, sent: nat)

  datatype System = System(table: Table, inflight: set<User>, operations: seq<Operation>)

  datatype Event =
    | Enter(user: User, action: string, chat: bool)
    | TryReserve(op: nat)
    | Release(op: nat)
    | Schedule(op: nat, ok: bool)
    | AbortFinish(op: nat)
    | WorkReturns(op: nat)
    | Finish(op: nat)
    | Navigate(user: User)

  const INITIAL := System(EMPTY_TABLE, {}, [])

  /** Results that are delivered even when the user has moved on. */
  predicate Preserves(action: string) {
    action in ["chat:pay", "chat:message", "chat:approve-policy", "chat:search-approve", "command:reveal",
               "command:last-purchase", "command:llm-buy", "command:llm-terms"]
  }

  predicate Holds(o: Operation) {
    o.phase in {Reserved, Working, Failed, Returned}
  }

  /** Between entry and exit of the chat guard. */
  predicate InGuard(o: Operation) {
    o.chat && o.phase in {Entered, Refusing, Reserved, Working}
  }

  function Supersede(ops: seq<Operation>, u: User): (r: seq<Operation>)
    ensures |r| == |ops|
    ensures forall i :: 0 <= i < |ops| ==>
              r[i] == if ops[i].user == u && Holds(ops[i]) then ops[i].(superseded := true) else ops[i]
  {
    seq(|ops|, i requires 0 <= i < |ops| =>
      if ops[i].user == u && Holds(ops[i]) then ops[i].(superseded := true) else ops[i])
  }

  predicate At(s: System, op: nat, phase: Phase) {
    op < |s.operations| && s.operations[op].phase == phase
  }

  function Released(inflight: set<User>, o: Operation): set<User> {
    if o.chat then inflight - {o.user} else inflight
  }

  /** The operation after its result was delivered or discarded. */
  function Ended(t: Table, o: Operation): Operation {
    var deliver := IsCurrent(t, o.user, o.generation) || Preserves(o.action);
    o.(phase := Finished, sent := if deliver then o.sent + 1 else o.sent)
  }

  function Step(s: System, e: Event): (t: System)
    requires s.table.Coherent()
    ensures t.table.Coherent()
  {
    match e
    case Enter(u, action, chat) =>
      if chat && (u in s.inflight || |s.inflight| >= MAX_USERS) then s
      else s.(inflight := if chat then s.inflight + {u} else s.inflight,
              operations := s.operations + [Operation(u, action, chat, Entered, 0, false, 0)])
    case TryReserve(op) =>
      if !At(s, op, Entered) then s
      else
        var o := s.operations[op];
        var (table, granted) := OperationTables.Reserved(s.table, o.user, o.action);
        if granted.None? then System(table, s.inflight, s.operations[op := o.(phase := Refusing)])
        else System(table, s.inflight,
                    Supersede(s.operations, o.user)[op := o.(phase := Reserved, generation := granted.value,
                                                             superseded := false)])
    case Release(op) =>
      if !At(s, op, Refusing) then s
      else
        var o := s.operations[op];
        System(s.table, Released(s.inflight, o), s.operations[op := o.(phase := Refused)])
    case Schedule(op, ok) =>
      if !At(s, op, Reserved) then s
      else
        var o := s.operations[op];
        if ok then s.(operations := s.operations[op := o.(phase := Working)])
        else System(s.table, Released(s.inflight, o), s.operations[op := o.(phase := Failed)])
    case AbortFinish(op) =>
      if !At(s, op, Failed) then s
      else
        var o := s.operations[op];
        s.(table := OperationTables.Finished(s.table, o.user, o.generation),
           operations := s.operations[op := o.(phase := Aborted)])
    case WorkReturns(op) =>
      if !At(s, op, Working) then s
      else
        var o := s.operations[op];
        System(s.table, Released(s.inflight, o), s.operations[op := o.(phase := Returned)])
    case Finish(op) =>
      if !At(s, op, Returned) then s
      else
        var o := s.operations[op];
        s.(table := OperationTables.Finished(s.table, o.user, o.generation),
           operations := s.operations[op := Ended(s.table, o)])
    case Navigate(u) =>
      s.(table := Invalidated(s.table, u), operations := Supersede(s.operations, u))
  }

  function Run(s: System, events: seq<Event>): System
    requires s.table.Coherent()
    decreases |events|
  {
    if events == [] then s else Run(Step(s, events[0]), events[1..])
  }

  // ----- The chat guard: mutual exclusion, with no assumption -----

  /** The slot set is exactly the users inside the guard, one operation each. */
  ghost predicate Guarded(s: System) {
    && (forall u :: u in s.inflight <==>
        exists i :: 0 <= i < |s.operations| && InGuard(s.operations[i]) && s.operations[i].user == u)
    && (forall i, j :: 0 <= i < j < |s.operations| && InGuard(s.operations[i]) && InGuard(s.operations[j])
          ==> s.operations[i].user != s.operations[j].user)
  }

  lemma StepKeepsGuarded(s: System, e: Event)
    requires s.table.Coherent() && Guarded(s)
    ensures Guarded(Step(s, e))
  {
    match e
    case Enter(u, action, chat) => EnterKeepsGuarded(s, u, action, chat);
    case Schedule(op, ok) => if ok { StaysInGuard(s, e); } else { LeavesGuard(s, Step(s, e), op); }
    case Release(op) => LeavesGuard(s, Step(s, e), op);
    case WorkReturns(op) => LeavesGuard(s, Step(s, e), op);
    case TryReserve(op) => ReservingStaysInGuard(s, op);
    case AbortFinish(_) => StaysInGuard(s, e);
    case Finish(_) => StaysInGuard(s, e);
    case Navigate(_) => StaysInGuard(s, e);
  }

  /** A refused or granted reservation leaves everybody where they are, in the guard or out of it. */
  lemma ReservingStaysInGuard(s: System, op: nat)
    requires s.table.Coherent() && Guarded(s)
    ensures Guarded(Step(s, TryReserve(op)))
  {
    SameGuardUsers(s, Step(s, TryReserve(op)));
  }

  lemma StaysInGuard(s: System, e: Event)
    requires s.table.Coherent() && Guarded(s)
    requires e.AbortFinish? || e.Finish? || e.Navigate? || (e.Schedule? && e.ok)
    ensures Guarded(Step(s, e))
  {
    SameGuardUsers(s, Step(s, e));
  }

  lemma EnterKeepsGuarded(s: System, u: User, action: string, chat: bool)
    requires s.table.Coherent() && Guarded(s)
    ensures Guarded(Step(s, Enter(u, action, chat)))
  {
    var t := Step(s, Enter(u, action, chat));
    if t != s {
      var n := |s.operations|;
      assert forall i :: 0 <= i < n ==> t.operations[i] == s.operations[i];
      assert InGuard(t.operations[n]) == chat && t.operations[n].user == u;
      forall v
        ensures v in t.inflight <==> exists i ::
                0 <= i < |t.operations| && InGuard(t.operations[i]) && t.operations[i].user == v
      {
        if v in s.inflight {
          var i :| 0 <= i < n && InGuard(s.operations[i]) && s.operations[i].user == v;
          assert InGuard(t.operations[i]);
        }
      }
    }
  }

  lemma SameGuardUsers(s: System, t: System)
    requires Guarded(s)
    requires t.inflight == s.inflight && |t.operations| == |s.operations|
    requires forall i :: 0 <= i < |s.operations| ==>
               InGuard(t.operations[i]) == InGuard(s.operations[i]) && t.operations[i].user == s.operations[i].user
    ensures Guarded(t)
  {
    forall u
      ensures u in t.inflight <==> exists i ::
              0 <= i < |t.operations| && InGuard(t.operations[i]) && t.operations[i].user == u
    {
      if u in s.inflight {
        var i :| 0 <= i < |s.operations| && InGuard(s.operations[i]) && s.operations[i].user == u;
        assert InGuard(t.operations[i]);
      }
    }
  }

  lemma LeavesGuard(s: System, t: System, op: nat)
    requires Guarded(s)
    requires op < |s.operations| == |t.operations| || t == s
    requires t != s ==> InGuard(s.operations[op]) == s.operations[op].chat && !InGuard(t.operations[op])
                        && t.inflight == Released(s.inflight, s.operations[op])
                        && forall i :: 0 <= i < |s.operations| && i != op ==> t.operations[i] == s.operations[i]
    ensures Guarded(t)
  {
    if t != s {
      forall u
        ensures u in t.inflight <==> exists i ::
                0 <= i < |t.operations| && InGuard(t.operations[i]) && t.operations[i].user == u
      {
        if u in t.inflight {
          var i :| 0 <= i < |s.operations| && InGuard(s.operations[i]) && s.operations[i].user == u;
          assert i != op;
          assert InGuard(t.operations[i]);
        }
      }
    }
  }

  /** Every interleaving: at most one chat worker a user, even after its operation was invalidated,
      and the slot is held exactly from entry to exit, whatever the exit path. */
  lemma {:induction false} RunKeepsGuarded(s: System, events: seq<Event>)
    requires s.table.Coherent() && Guarded(s)
    ensures Guarded(Run(s, events))
    decreases |events|
  {
    if events != [] {
      StepKeepsGuarded(s, events[0]);
      RunKeepsGuarded(Step(s, events[0]), events[1..]);
    }
  }

  // ----- Generations: exact as long as no held generation is granted again -----

  ghost predicate HoldersDistinct(s: System) {
    forall i, j :: 0 <= i < j < |s.operations| && Holds(s.operations[i]) && Holds(s.operations[j])
                   && s.operations[i].user == s.operations[j].user
      ==> s.operations[i].generation != s.operations[j].generation
  }

  /** The generation test answers exactly "nothing has superseded this operation". */
  ghost predicate CurrentIsExact(s: System) {
    forall i :: 0 <= i < |s.operations| && Holds(s.operations[i]) ==>
      var o := s.operations[i];
      IsCurrent(s.table, o.user, o.generation) <==> !o.superseded
  }

  /** Every active entry belongs to an operation that will still finish it. */
  ghost predicate NoOrphan(s: System) {
    forall u :: u in s.table.active ==> Owned(s, u)
  }

  ghost predicate Owned(s: System, u: User)
    requires u in s.table.active
  {
    exists i :: 0 <= i < |s.operations| && Owns(s.operations[i], u, s.table.active[u].generation)
  }

  ghost predicate Owns(o: Operation, u: User, g: int) {
    Holds(o) && o.user == u && o.generation == g
  }

  /** An ordinary result is sent iff nothing superseded it; a preserved one is sent once in any case. */
  ghost predicate DeliveryExact(s: System) {
    forall i :: 0 <= i < |s.operations| ==>
      var o := s.operations[i];
      o.sent == if o.phase == Finished && (Preserves(o.action) || !o.superseded) then 1 else 0
  }

  ghost predicate Exact(s: System) {
    HoldersDistinct(s) && CurrentIsExact(s) && NoOrphan(s) && DeliveryExact(s)
  }

  /** The generation a step grants to an operation. */
  function Granted(s: System, e: Event): Option<int>
    requires s.table.Coherent()
  {
    if e.TryReserve? && At(s, e.op, Entered)
    then OperationTables.Reserved(s.table, s.operations[e.op].user, s.operations[e.op].action).1
    else None
  }

  /** The step grants a generation that an outstanding operation of the same user holds. */
  ghost predicate Reuses(s: System, e: Event)
    requires s.table.Coherent()
  {
    Granted(s, e).Some?
    && exists i :: 0 <= i < |s.operations| && Owns(s.operations[i], s.operations[e.op].user, Granted(s, e).value)
  }

  ghost predicate NeverReuses(s: System, events: seq<Event>)
    requires s.table.Coherent()
    decreases |events|
  {
    events != [] ==> !Reuses(s, events[0]) && NeverReuses(Step(s, events[0]), events[1..])
  }

  lemma CurrentIsActive(t: Table, u: User, g: int)
    requires t.Coherent()
    ensures IsCurrent(t, u, g) <==> u in t.active && t.active[u].generation == g
  {
  }

  /** An active entry that stays keeps its owner. */
  lemma OwnedStays(s: System, t: System, v: User)
    requires NoOrphan(s) && v in s.table.active && v in t.table.active
    requires t.table.active[v].generation == s.table.active[v].generation && |t.operations| >= |s.operations|
    requires forall i :: 0 <= i < |s.operations| && Owns(s.operations[i], v, s.table.active[v].generation) ==>
               Owns(t.operations[i], v, s.table.active[v].generation)
    ensures Owned(t, v)
  {
    assert Owned(s, v);
    var i :| 0 <= i < |s.operations| && Owns(s.operations[i], v, s.table.active[v].generation);
    assert Owns(t.operations[i], v, t.table.active[v].generation);
  }

  lemma StayDistinct(s: System, t: System)
    requires HoldersDistinct(s) && |t.operations| == |s.operations|
    requires forall i :: 0 <= i < |s.operations| && Holds(t.operations[i]) ==>
               Owns(s.operations[i], t.operations[i].user, t.operations[i].generation)
    ensures HoldersDistinct(t)
  {
    forall i, j | 0 <= i < j < |t.operations| && Holds(t.operations[i]) && Holds(t.operations[j])
                  && t.operations[i].user == t.operations[j].user
      ensures t.operations[i].generation != t.operations[j].generation
    {
      assert Holds(s.operations[i]) && Holds(s.operations[j]);
    }
  }

  lemma GrantStaysDistinct(s: System, t: System, op: nat)
    requires HoldersDistinct(s) && op < |s.operations| == |t.operations|
    requires forall i :: 0 <= i < |s.operations| && i != op && Holds(t.operations[i]) ==>
               && Owns(s.operations[i], t.operations[i].user, t.operations[i].generation)
               && !Owns(s.operations[i], t.operations[op].user, t.operations[op].generation)
    ensures HoldersDistinct(t)
  {
    forall i, j | 0 <= i < j < |t.operations| && Holds(t.operations[i]) && Holds(t.operations[j])
                  && t.operations[i].user == t.operations[j].user
      ensures t.operations[i].generation != t.operations[j].generation
    {
      if i != op && j != op { assert Holds(s.operations[i]) && Holds(s.operations[j]); }
    }
  }

  /** What a granted reservation does, apart from which counter made room for it. */
  ghost predicate Granting(s: System, t: System, op: nat, g: int) {
    && s.table.Coherent() && t.table.Coherent() && At(s, op, Entered) && |t.operations| == |s.operations|
    && var u := s.operations[op].user;
    && t.operations[op] == s.operations[op].(phase := Reserved, generation := g, superseded := false)
    && (forall i :: 0 <= i < |s.operations| && i != op ==>
          t.operations[i] == if s.operations[i].user == u && Holds(s.operations[i])
                             then s.operations[i].(superseded := true) else s.operations[i])
    && u in t.table.active && t.table.active[u] == Active(g, s.operations[op].action)
    && (forall v :: v != u ==> (v in t.table.active <==> v in s.table.active)
                               && (v in t.table.active ==> t.table.active[v] == s.table.active[v]))
  }

  lemma ReservingGrants(s: System, op: nat)
    requires s.table.Coherent() && Granted(s, TryReserve(op)).Some?
    ensures Granting(s, Step(s, TryReserve(op)), op, Granted(s, TryReserve(op)).value)
  {
    ReservedGrants(s.table, s.operations[op].user, s.operations[op].action);
  }

  lemma GrantKeepsCurrent(s: System, t: System, op: nat, g: int)
    requires CurrentIsExact(s) && Granting(s, t, op, g)
    requires forall i :: 0 <= i < |s.operations| ==> !Owns(s.operations[i], s.operations[op].user, g)
    ensures CurrentIsExact(t)
  {
    forall i | 0 <= i < |t.operations| && Holds(t.operations[i])
      ensures var o := t.operations[i]; IsCurrent(t.table, o.user, o.generation) <==> !o.superseded
    {
      var o := t.operations[i];
      CurrentIsActive(t.table, o.user, o.generation);
      if i != op {
        assert Holds(s.operations[i]) && !Owns(s.operations[i], s.operations[op].user, g);
        CurrentIsActive(s.table, o.user, o.generation);
      }
    }
  }

  lemma GrantDelivers(s: System, t: System, op: nat, g: int)
    requires DeliveryExact(s) && Granting(s, t, op, g)
    ensures DeliveryExact(t)
  {
  }

  lemma GrantKeepsExact(s: System, t: System, op: nat, g: int)
    requires Exact(s) && Granting(s, t, op, g)
    requires forall i :: 0 <= i < |s.operations| ==> !Owns(s.operations[i], s.operations[op].user, g)
    ensures Exact(t)
  {
    var u := s.operations[op].user;
    GrantKeepsCurrent(s, t, op, g);
    GrantStaysDistinct(s, t, op);
    GrantDelivers(s, t, op, g);
    forall v | v in t.table.active
      ensures Owned(t, v)
    {
      if v == u {
        assert Owns(t.operations[op], v, g);
      } else {
        OwnedStays(s, t, v);
      }
    }
  }

  /** Steps that neither grant nor end a generation: holders and active entries stay. */
  lemma SameHolders(s: System, t: System)
    requires s.table.Coherent() && t.table.Coherent()
    requires Exact(s) && t.table.active == s.table.active && |t.operations| >= |s.operations|
    requires forall i :: 0 <= i < |t.operations| && Holds(t.operations[i]) ==>
             i < |s.operations| && Holds(s.operations[i])
    requires forall i :: 0 <= i < |s.operations| && Holds(s.operations[i]) ==>
               Holds(t.operations[i]) && t.operations[i] == s.operations[i].(phase := t.operations[i].phase)
    requires DeliveryExact(t)
    ensures Exact(t)
  {
    forall i | 0 <= i < |t.operations| && Holds(t.operations[i])
      ensures var o := t.operations[i]; IsCurrent(t.table, o.user, o.generation) <==> !o.superseded
    {
      CurrentIsActive(s.table, s.operations[i].user, s.operations[i].generation);
    }
    forall v | v in t.table.active
      ensures Owned(t, v)
    {
      OwnedStays(s, t, v);
    }
  }

  /** What navigation does to the operations. */
  ghost predicate Superseded(s: System, t: System, u: User) {
    && |t.operations| == |s.operations|
    && forall i :: 0 <= i < |s.operations| ==>
         t.operations[i] == if s.operations[i].user == u && Holds(s.operations[i])
                            then s.operations[i].(superseded := true) else s.operations[i]
  }

  lemma NavigateKeepsCurrent(s: System, t: System, u: User)
    requires s.table.Coherent() && t.table.Coherent() && CurrentIsExact(s) && Superseded(s, t, u)
    requires t.table.active == s.table.active - {u}
    ensures CurrentIsExact(t)
  {
    forall i | 0 <= i < |t.operations| && Holds(t.operations[i])
      ensures var o := t.operations[i]; IsCurrent(t.table, o.user, o.generation) <==> !o.superseded
    {
      assert Holds(s.operations[i]);
      CurrentIsActive(s.table, s.operations[i].user, s.operations[i].generation);
      CurrentIsActive(t.table, s.operations[i].user, s.operations[i].generation);
    }
  }

  lemma SupersedingDelivers(s: System, t: System, u: User)
    requires DeliveryExact(s) && Superseded(s, t, u)
    ensures DeliveryExact(t)
  {
  }

  /** Navigation supersedes every holder of the user and takes the active entry away. */
  lemma NavigateKeepsExact(s: System, t: System, u: User)
    requires s.table.Coherent() && t.table.Coherent() && Exact(s) && Superseded(s, t, u)
    requires t.table.active == s.table.active - {u}
    ensures Exact(t)
  {
    NavigateKeepsCurrent(s, t, u);
    SupersedingDelivers(s, t, u);
    StayDistinct(s, t);
    forall v | v in t.table.active
      ensures Owned(t, v)
    {
      OwnedStays(s, t, v);
    }
  }

  /** What the end of an operation does. */
  ghost predicate Closing(s: System, t: System, op: nat) {
    && op < |s.operations| == |t.operations| && Holds(s.operations[op]) && !Holds(t.operations[op])
    && (forall i :: 0 <= i < |s.operations| && i != op ==> t.operations[i] == s.operations[i])
    && t.table == OperationTables.Finished(s.table, s.operations[op].user, s.operations[op].generation)
  }

  lemma EndKeepsCurrent(s: System, t: System, op: nat)
    requires s.table.Coherent() && HoldersDistinct(s) && CurrentIsExact(s) && Closing(s, t, op)
    ensures CurrentIsExact(t)
  {
    var o := s.operations[op];
    forall i | 0 <= i < |t.operations| && Holds(t.operations[i])
      ensures var p := t.operations[i]; IsCurrent(t.table, p.user, p.generation) <==> !p.superseded
    {
      assert i != op && (s.operations[i].user != o.user || s.operations[i].generation != o.generation) by {
        if i < op { assert Holds(s.operations[i]) && Holds(s.operations[op]); }
      }
    }
  }

  /** A holder that ends takes only its own active entry with it. */
  lemma EndKeepsExact(s: System, t: System, op: nat)
    requires s.table.Coherent() && Exact(s) && Closing(s, t, op) && DeliveryExact(t)
    ensures Exact(t)
  {
    EndKeepsCurrent(s, t, op);
    StayDistinct(s, t);
    forall v | v in t.table.active
      ensures Owned(t, v)
    {
      OwnedStays(s, t, v);
    }
  }

  lemma TryReserveKeepsExact(s: System, op: nat)
    requires s.table.Coherent() && Exact(s) && !Reuses(s, TryReserve(op)) && At(s, op, Entered)
    ensures Exact(Step(s, TryReserve(op)))
  {
    var granted := Granted(s, TryReserve(op));
    if granted.Some? {
      ReservingGrants(s, op);
      GrantKeepsExact(s, Step(s, TryReserve(op)), op, granted.value);
    } else {
      RefusalKeepsExact(s, op);
    }
  }

  lemma RefusedKeepsActive(t: Table, u: User, action: string)
    requires t.Coherent() && OperationTables.Reserved(t, u, action).1.None?
    ensures OperationTables.Reserved(t, u, action).0.active == t.active
  {
    if u in t.active && t.active[u].action != action { TrackedGrants(t, u, action); }
  }

  lemma OneRephased(s: System, t: System, op: nat, phase: Phase)
    requires DeliveryExact(s) && op < |s.operations| && s.operations[op].phase != Finished && phase != Finished
    requires t.operations == s.operations[op := s.operations[op].(phase := phase)]
    ensures DeliveryExact(t)
  {
  }

  lemma RefusalKeepsExact(s: System, op: nat)
    requires s.table.Coherent() && Exact(s) && At(s, op, Entered) && Granted(s, TryReserve(op)).None?
    ensures Exact(Step(s, TryReserve(op)))
  {
    var t := Step(s, TryReserve(op));
    RefusedKeepsActive(s.table, s.operations[op].user, s.operations[op].action);
    OneRephased(s, t, op, Refusing);
    SameHolders(s, t);
  }

  lemma PassiveKeepsExact(s: System, t: System, op: nat)
    requires s.table.Coherent() && Exact(s) && op < |s.operations| == |t.operations|
    requires t.table == s.table
    requires t.operations == s.operations[op := s.operations[op].(phase := t.operations[op].phase)]
    requires Holds(s.operations[op]) == Holds(t.operations[op])
    requires s.operations[op].phase != Finished && t.operations[op].phase != Finished
    ensures Exact(t)
  {
    SameHolders(s, t);
  }

  /** A generation granted again: the superseded operation that holds it passes for the current one. */
  lemma ReuseConfuses(s: System, e: Event)
    requires s.table.Coherent() && Reuses(s, e)
    ensures !CurrentIsExact(Step(s, e))
  {
    var t := Step(s, e);
    var o := s.operations[e.op];
    var g := Granted(s, e).value;
    ReservedGrants(s.table, o.user, o.action);
    var i :| 0 <= i < |s.operations| && Owns(s.operations[i], o.user, g);
    assert Holds(t.operations[i]) && t.operations[i].superseded;
    assert IsCurrent(t.table, o.user, g);
  }

  /** The exact condition: a step keeps the generation test, and everything that rests on it, iff it does not
      grant a generation that is still held. */
  lemma StepKeepsExactIff(s: System, e: Event)
    requires s.table.Coherent() && Exact(s)
    ensures Exact(Step(s, e)) <==> !Reuses(s, e)
    ensures CurrentIsExact(Step(s, e)) <==> !Reuses(s, e)
  {
    if Reuses(s, e) {
      ReuseConfuses(s, e);
    } else {
      OtherStepsKeepExact(s, e);
    }
  }

  lemma OtherStepsKeepExact(s: System, e: Event)
    requires s.table.Coherent() && Exact(s) && !Reuses(s, e)
    ensures Exact(Step(s, e))
  {
    match e
    case TryReserve(op) => if At(s, op, Entered) { TryReserveKeepsExact(s, op); }
    case Navigate(u) => NavigateKeepsExact(s, Step(s, e), u);
    case Finish(op) => if At(s, op, Returned) { EndKeepsExact(s, Step(s, e), op); }
    case AbortFinish(op) => if At(s, op, Failed) { EndKeepsExact(s, Step(s, e), op); }
    case _ => PassiveStepKeepsExact(s, e);
  }

  lemma PassiveStepKeepsExact(s: System, e: Event)
    requires s.table.Coherent() && Exact(s) && (e.Enter? || e.Release? || e.Schedule? || e.WorkReturns?)
    ensures Exact(Step(s, e))
  {
    match e
    case Enter(_, _, _) => SameHolders(s, Step(s, e));
    case Release(op) => if At(s, op, Refusing) { PassiveKeepsExact(s, Step(s, e), op); }
    case Schedule(op, _) => if At(s, op, Reserved) { PassiveKeepsExact(s, Step(s, e), op); }
    case WorkReturns(op) => if At(s, op, Working) { PassiveKeepsExact(s, Step(s, e), op); }
    case _ =>
  }

  ghost predicate AlwaysExact(s: System, events: seq<Event>)
    requires s.table.Coherent()
    decreases |events|
  {
    Exact(s) && (events != [] ==> AlwaysExact(Step(s, events[0]), events[1..]))
  }

  /** Every interleaving: the generation test is exact, an ordinary result is sent iff it was not superseded,
      a preserved one exactly once, and no active entry is left without the operation that will end it, at
      every point of the run iff the run never grants a held generation. */
  lemma {:induction false} RunIsExactIff(s: System, events: seq<Event>)
    requires s.table.Coherent() && Exact(s)
    ensures AlwaysExact(s, events) <==> NeverReuses(s, events)
    decreases |events|
  {
    if events != [] {
      StepKeepsExactIff(s, events[0]);
      if Exact(Step(s, events[0])) { RunIsExactIff(Step(s, events[0]), events[1..]); }
    }
  }

  lemma {:induction false} AlwaysAtEnd(s: System, events: seq<Event>)
    requires s.table.Coherent() && AlwaysExact(s, events)
    ensures Exact(Run(s, events))
    decreases |events|
  {
    if events != [] { AlwaysAtEnd(Step(s, events[0]), events[1..]); }
  }

  // ----- A sufficient condition: no outstanding operation's counter is evicted -----

  ghost predicate HoldersTracked(s: System) {
    forall i :: 0 <= i < |s.operations| && Holds(s.operations[i]) ==>
      var o := s.operations[i];
      o.user in s.table.generations.entries && o.generation <= s.table.generations.entries[o.user]
  }

  /** The step evicts the counter of a user whose operation still holds a generation. */
  ghost predicate Forgets(s: System, e: Event) {
    && e.TryReserve? && At(s, e.op, Entered)
    && var evicted := Evicted(s.table, s.operations[e.op].user);
    && evicted.Some?
    && exists i :: 0 <= i < |s.operations| && Holds(s.operations[i]) && s.operations[i].user == evicted.value
  }

  ghost predicate NeverForgets(s: System, events: seq<Event>)
    requires s.table.Coherent()
    decreases |events|
  {
    events != [] ==> !Forgets(s, events[0]) && NeverForgets(Step(s, events[0]), events[1..])
  }

  ghost predicate KeepsCounter(t: Table, t': Table, u: User) {
    u in t.generations.entries ==> u in t'.generations.entries && t.generations.entries[u] <= t'.generations.entries[u]
  }

  /** A reservation lowers no counter but the one it evicts. */
  lemma ReservedKeepsCounter(t: Table, u: User, action: string, v: User)
    requires t.Coherent() && Evicted(t, u) != Some(v)
    ensures KeepsCounter(t, OperationTables.Reserved(t, u, action).0, v)
  {
    if u in t.active && t.active[u].action != action { TrackedGrants(t, u, action); }
  }

  lemma GrantStaysTracked(s: System, op: nat)
    requires s.table.Coherent() && HoldersTracked(s) && At(s, op, Entered) && !Forgets(s, TryReserve(op))
    ensures HoldersTracked(Step(s, TryReserve(op)))
  {
    var t := Step(s, TryReserve(op));
    var o := s.operations[op];
    if Granted(s, TryReserve(op)).Some? { ReservedGrants(s.table, o.user, o.action); }
    forall i | 0 <= i < |t.operations| && i != op && Holds(t.operations[i])
      ensures t.operations[i].user in t.table.generations.entries
              && t.operations[i].generation <= t.table.generations.entries[t.operations[i].user]
    {
      assert Holds(s.operations[i]) && s.operations[i].user == t.operations[i].user;
      ReservedKeepsCounter(s.table, o.user, o.action, s.operations[i].user);
    }
  }

  lemma TrackedNeverReuses(s: System, e: Event)
    requires s.table.Coherent() && HoldersTracked(s)
    ensures !Reuses(s, e)
  {
    if Granted(s, e).Some? {
      var o := s.operations[e.op];
      ReservedGrants(s.table, o.user, o.action);
    }
  }

  /** Counters never fall, and no generation is granted. */
  lemma UngrantedStaysTracked(s: System, t: System)
    requires HoldersTracked(s) && |s.operations| <= |t.operations|
    requires forall i :: 0 <= i < |t.operations| && Holds(t.operations[i]) ==>
               i < |s.operations| && Owns(s.operations[i], t.operations[i].user, t.operations[i].generation)
    requires forall u :: KeepsCounter(s.table, t.table, u)
    ensures HoldersTracked(t)
  {
    forall i | 0 <= i < |t.operations| && Holds(t.operations[i])
      ensures t.operations[i].user in t.table.generations.entries
              && t.operations[i].generation <= t.table.generations.entries[t.operations[i].user]
    {
      assert Holds(s.operations[i]) && KeepsCounter(s.table, t.table, s.operations[i].user);
    }
  }

  lemma UnforgottenStaysTracked(s: System, e: Event)
    requires s.table.Coherent() && HoldersTracked(s) && !Forgets(s, e)
    ensures HoldersTracked(Step(s, e)) && !Reuses(s, e)
  {
    TrackedNeverReuses(s, e);
    if e.TryReserve? {
      if At(s, e.op, Entered) { GrantStaysTracked(s, e.op); }
    } else {
      UngrantedStaysTracked(s, Step(s, e));
    }
  }

  lemma {:induction false} UnforgottenNeverReuses(s: System, events: seq<Event>)
    requires s.table.Coherent() && HoldersTracked(s) && NeverForgets(s, events)
    ensures NeverReuses(s, events)
    decreases |events|
  {
    if events != [] {
      UnforgottenStaysTracked(s, events[0]);
      UnforgottenNeverReuses(Step(s, events[0]), events[1..]);
    }
  }

  /** From start-up: the chat guard excludes on every run; the generations are exact throughout a run iff it
      never grants a held generation, in particular when it forgets no outstanding counter. */
  lemma EveryRun(events: seq<Event>)
    ensures Guarded(Run(INITIAL, events))
    ensures AlwaysExact(INITIAL, events) <==> NeverReuses(INITIAL, events)
    ensures NeverReuses(INITIAL, events) ==> Exact(Run(INITIAL, events))
    ensures NeverForgets(INITIAL, events) ==> NeverReuses(INITIAL, events)
  {
    RunKeepsGuarded(INITIAL, events);
    RunIsExactIff(INITIAL, events);
    if NeverReuses(INITIAL, events) { AlwaysAtEnd(INITIAL, events); }
    if NeverForgets(INITIAL, events) { UnforgottenNeverReuses(INITIAL, events); }
  }

  // ----- What a reuse leads to -----

  /** How an outstanding operation comes to its end. */
  function Ending(i: nat, phase: Phase): seq<Event> {
    match phase
    case Reserved => [Schedule(i, true), WorkReturns(i), Finish(i)]
    case Working => [WorkReturns(i), Finish(i)]
    case Returned => [Finish(i)]
    case _ => [AbortFinish(i)]
  }

  /** Its end takes the active entry of whoever holds its generation, and only a scheduled one delivers. */
  lemma HolderEnds(s: System, i: nat)
    requires s.table.Coherent() && i < |s.operations| && Holds(s.operations[i])
    ensures var o := s.operations[i];
            var t := Run(s, Ending(i, o.phase));
            && t.table == OperationTables.Finished(s.table, o.user, o.generation)
            && t.operations == s.operations[i := if o.phase == Failed then o.(phase := Aborted) else Ended(s.table, o)]
  {
    var o := s.operations[i];
    var events := Ending(i, o.phase);
    match o.phase
    case Reserved => ReservedEnds(s, i);
    case Working =>
      RunTwo(s, events);
      ReturnsAndFinishes(s, i);
    case _ => RunOne(s, events);
  }

  lemma ReservedEnds(s: System, i: nat)
    requires s.table.Coherent() && At(s, i, Reserved)
    ensures var o := s.operations[i];
            var t := Run(s, Ending(i, Reserved));
            && t.table == OperationTables.Finished(s.table, o.user, o.generation)
            && t.operations == s.operations[i := Ended(s.table, o)]
  {
    var o := s.operations[i];
    var working := s.operations[i := o.(phase := Working)];
    assert Step(s, Schedule(i, true)) == s.(operations := working);
    RunThree(s, Ending(i, Reserved));
    ReturnsAndFinishes(s.(operations := working), i);
    assert working[i := Ended(s.table, o)] == s.operations[i := Ended(s.table, o)];
  }

  lemma ReturnsAndFinishes(s: System, i: nat)
    requires s.table.Coherent() && At(s, i, Working)
    ensures var o := s.operations[i];
            var t := Step(Step(s, WorkReturns(i)), Finish(i));
            && t.inflight == Released(s.inflight, o)
            && t.table == OperationTables.Finished(s.table, o.user, o.generation)
            && t.operations == s.operations[i := Ended(s.table, o)]
  {
    var o := s.operations[i];
    var returned := s.operations[i := o.(phase := Returned)];
    assert Step(s, WorkReturns(i)).operations == returned;
    assert returned[i := Ended(s.table, o)] == s.operations[i := Ended(s.table, o)];
  }

  /** Whenever a held generation is granted to an ordinary operation, or one held by an ordinary operation whose
      worker was scheduled is granted to anyone, the run can go on to a wrong delivery. */
  lemma ReuseCanMisdeliver(s: System, e: Event, i: nat)
    requires s.table.Coherent() && Exact(s) && Granted(s, e).Some?
    requires i < |s.operations| && Owns(s.operations[i], s.operations[e.op].user, Granted(s, e).value)
    requires !Preserves(s.operations[e.op].action)
             || (!Preserves(s.operations[i].action) && s.operations[i].phase != Failed)
    ensures exists events :: !DeliveryExact(Run(Step(s, e), events))
  {
    var t := Step(s, e);
    var op, u, g := e.op, s.operations[e.op].user, Granted(s, e).value;
    ReservedGrants(s.table, u, s.operations[op].action);
    assert i != op && t.operations[i].superseded && IsCurrent(t.table, u, g);
    var first := Ending(i, t.operations[i].phase);
    HolderEnds(t, i);
    var t1 := Run(t, first);
    if !Preserves(s.operations[i].action) && s.operations[i].phase != Failed {
      assert t1.operations[i].sent == 1;
      assert !DeliveryExact(t1);
    } else {
      var second := Ending(op, Reserved);
      RunAppend(t, first, second);
      HolderEnds(t1, op);
      var t2 := Run(t1, second);
      assert !IsCurrent(t1.table, u, g);
      assert t2.operations[op].sent == 0 && t2.operations[op].phase == Finished && !t2.operations[op].superseded;
      assert !DeliveryExact(Run(t, first + second));
    }
  }

  // ----- Why the condition is needed: a run in which an outstanding counter is forgotten -----

  function Begin(u: User, action: string, op: nat): seq<Event> {
    [Enter(u, action, false), TryReserve(op), Schedule(op, true)]
  }

  function End(op: nat): seq<Event> {
    [WorkReturns(op), Finish(op)]
  }

  /** User 0 starts an operation and navigates away; users 1 .. n-1 each run a whole operation. */
  function Crowd(n: nat): seq<Event> {
    if n <= 1 then Begin(0, "command:wallet", 0) + [Navigate(0)]
    else Crowd(n - 1) + (Begin(n - 1, "command:wallet", n - 1) + End(n - 1))
  }

  /** One more user pushes user 0's counter out; user 0 comes back; both workers of user 0 end. */
  function ForgetfulRun(): seq<Event> {
    Crowd(MAX_USERS + 1) + (Begin(0, "command:start", MAX_USERS + 1) + (End(0) + End(MAX_USERS + 1)))
  }

  /** The worker of user 0 is still running, superseded; nobody is active; users 0 .. n-1 are tracked. */
  ghost predicate Crowded(s: System, n: nat) {
    && s.table.Coherent() && s.table.active == map[] && s.inflight == {}
    && CrowdOrder(s.table.generations.order, n) && CrowdOperations(s.operations, n)
  }

  ghost predicate CrowdOrder(order: seq<User>, n: nat) {
    && |order| == (if n <= MAX_USERS then n else MAX_USERS)
    && forall i :: 0 <= i < |order| ==> order[i] == if n <= MAX_USERS then i else i + 1
  }

  ghost predicate CrowdOperations(operations: seq<Operation>, n: nat) {
    && 0 < n == |operations| && operations[0] == Operation(0, "command:wallet", false, Working, 1, true, 0)
    && forall i :: 0 < i < n ==> operations[i].user == i && operations[i].phase == Finished
  }

  lemma {:induction false} RunAppend(s: System, a: seq<Event>, b: seq<Event>)
    requires s.table.Coherent()
    ensures Run(s, a).table.Coherent() && Run(s, a + b) == Run(Run(s, a), b)
    decreases |a|
  {
    if a == [] {
      assert a + b == b;
    } else {
      assert (a + b)[0] == a[0] && (a + b)[1..] == a[1..] + b;
      RunAppend(Step(s, a[0]), a[1..], b);
    }
  }

  /** A newcomer reserves: generation 1, at the end of the order, the first tracked user forgotten if full. */
  lemma NewcomerReserves(t: Table, u: User, action: string)
    requires t.Coherent() && t.active == map[] && u !in t.generations.entries && |t.generations.order| <= MAX_USERS
    ensures var (after, g) := OperationTables.Reserved(t, u, action);
            && g == Some(1) && after.active == map[u := Active(1, action)]
            && after.generations.order == (if |t.generations.order| == MAX_USERS then t.generations.order[1..]
                                           else t.generations.order) + [u]
            && after.generations.entries[u] == 1
  {
    if |t.generations.order| == MAX_USERS {
      assert t.generations.order[0] in t.generations.entries;
    }
  }

  lemma EntersAndReserves(s: System, u: User, action: string)
    requires s.table.Coherent() && s.table.active == map[] && u !in s.table.generations.entries
    requires |s.table.generations.order| <= MAX_USERS
    requires forall i :: 0 <= i < |s.operations| && s.operations[i].user == u && Holds(s.operations[i]) ==>
               s.operations[i].superseded
    ensures var t := Step(Step(s, Enter(u, action, false)), TryReserve(|s.operations|));
            && t.table == OperationTables.Reserved(s.table, u, action).0 && t.inflight == s.inflight
            && t.operations == s.operations + [Operation(u, action, false, Reserved, 1, false, 0)]
  {
    NewcomerReserves(s.table, u, action);
    var entered := Operation(u, action, false, Entered, 0, false, 0);
    assert Supersede(s.operations + [entered], u) == s.operations + [entered];
  }

  lemma BeginRuns(s: System, u: User, action: string)
    requires s.table.Coherent() && s.table.active == map[] && u !in s.table.generations.entries
    requires |s.table.generations.order| <= MAX_USERS
    requires forall i :: 0 <= i < |s.operations| && s.operations[i].user == u && Holds(s.operations[i]) ==>
               s.operations[i].superseded
    ensures var t := Run(s, Begin(u, action, |s.operations|));
            && t.table == OperationTables.Reserved(s.table, u, action).0 && t.inflight == s.inflight
            && t.operations == s.operations + [Operation(u, action, false, Working, 1, false, 0)]
  {
    EntersAndReserves(s, u, action);
    RunThree(s, Begin(u, action, |s.operations|));
  }

  lemma RunOne(s: System, es: seq<Event>)
    requires s.table.Coherent() && |es| == 1
    ensures Run(s, es) == Step(s, es[0])
  {
    assert Run(s, es) == Run(Step(s, es[0]), es[1..]);
  }

  lemma RunThree(s: System, es: seq<Event>)
    requires s.table.Coherent() && |es| == 3
    ensures Run(s, es) == Step(Step(Step(s, es[0]), es[1]), es[2])
  {
    RunTwo(Step(s, es[0]), es[1..]);
  }

  lemma EndRuns(s: System, op: nat)
    requires s.table.Coherent() && At(s, op, Working) && !s.operations[op].chat
    ensures var o := s.operations[op];
            Run(s, End(op)) == System(OperationTables.Finished(s.table, o.user, o.generation), s.inflight,
                                      s.operations[op := Ended(s.table, o)])
  {
    RunTwo(s, End(op));
    ReturnsAndFinishes(s, op);
  }

  lemma RunTwo(s: System, es: seq<Event>)
    requires s.table.Coherent() && |es| == 2
    ensures Run(s, es) == Step(Step(s, es[0]), es[1])
  {
    RunOne(Step(s, es[0]), es[1..]);
  }

  lemma NavigatesAway(s: System)
    requires s.table.Coherent() && s.inflight == {} && s.table.active == map[0 := Active(1, "command:wallet")]
    requires s.table.generations.order == [0]
    requires s.operations == [Operation(0, "command:wallet", false, Working, 1, false, 0)]
    ensures Crowded(Step(s, Navigate(0)), 1)
  {
    assert Step(s, Navigate(0)).table.active == map[];
  }

  lemma FirstVisitor()
    ensures Crowded(Run(INITIAL, Crowd(1)), 1)
  {
    var begin, leave := Begin(0, "command:wallet", 0), [Navigate(0)];
    BeginRuns(INITIAL, 0, "command:wallet");
    NewcomerReserves(INITIAL.table, 0, "command:wallet");
    assert |INITIAL.operations| == 0;
    var s := Run(INITIAL, begin);
    assert s.table.Coherent() && s.operations == [Operation(0, "command:wallet", false, Working, 1, false, 0)];
    NavigatesAway(s);
    RunOne(s, leave);
    RunAppend(INITIAL, begin, leave);
    assert Crowd(1) == begin + leave;
    assert Run(INITIAL, Crowd(1)) == Run(s, leave) == Step(s, Navigate(0));
  }

  lemma WholeVisit(s: System, u: User)
    requires s.table.Coherent() && s.table.active == map[] && u !in s.table.generations.entries
    requires |s.table.generations.order| <= MAX_USERS
    requires forall i :: 0 <= i < |s.operations| ==> s.operations[i].user != u
    ensures var op := |s.operations|;
            var t := Run(s, Begin(u, "command:wallet", op) + End(op));
            && t.table.Coherent() && t.table.active == map[] && t.inflight == s.inflight
            && t.operations == s.operations + [Operation(u, "command:wallet", false, Finished, 1, false, 1)]
            && t.table.generations == OperationTables.Reserved(s.table, u, "command:wallet").0.generations
  {
    var op := |s.operations|;
    var begin := Begin(u, "command:wallet", op);
    BeginRuns(s, u, "command:wallet");
    NewcomerReserves(s.table, u, "command:wallet");
    RunAppend(s, begin, End(op));
    EndRuns(Run(s, begin), op);
  }

  lemma NextVisitor(s: System, n: nat)
    requires Crowded(s, n) && n <= MAX_USERS
    ensures Crowded(Run(s, Begin(n, "command:wallet", n) + End(n)), n + 1)
  {
    assert n !in s.table.generations.order;
    NewcomerReserves(s.table, n, "command:wallet");
    WholeVisit(s, n);
    var t := Run(s, Begin(n, "command:wallet", n) + End(n));
    OperationsGrow(s.operations, t.operations, n);
    OrderGrows(s.table.generations.order, t.table.generations.order, n);
  }

  lemma OrderGrows(before: seq<User>, after: seq<User>, n: nat)
    requires CrowdOrder(before, n) && n <= MAX_USERS
    requires after == (if n == MAX_USERS then before[1..] else before) + [n]
    ensures CrowdOrder(after, n + 1)
  {
  }

  lemma OperationsGrow(before: seq<Operation>, after: seq<Operation>, n: nat)
    requires CrowdOperations(before, n) && |after| == n + 1 && after[..n] == before
    requires after[n].user == n && after[n].phase == Finished
    ensures CrowdOperations(after, n + 1)
  {
    assert forall i :: 0 <= i < n ==> after[i] == before[i];
  }

  lemma {:induction false} CrowdRuns(n: nat)
    requires 0 < n <= MAX_USERS + 1
    ensures Crowded(Run(INITIAL, Crowd(n)), n)
  {
    if n == 1 {
      FirstVisitor();
    } else {
      CrowdRuns(n - 1);
      NextVisitor(Run(INITIAL, Crowd(n - 1)), n - 1);
      RunAppend(INITIAL, Crowd(n - 1), Begin(n - 1, "command:wallet", n - 1) + End(n - 1));
    }
  }

  /** Two operations of one user hold generation 1, and no one else is active: the stale one ends first. */
  lemma StaleEndsFirst(s: System, stale: nat, back: nat)
    requires s.table.Coherent() && At(s, stale, Working) && At(s, back, Working) && stale != back
    requires s.operations[stale] == Operation(0, "command:wallet", false, Working, 1, true, 0)
    requires s.operations[back] == Operation(0, "command:start", false, Working, 1, false, 0)
    requires s.table.active == map[0 := Active(1, "command:start")]
    ensures var t := Run(s, End(stale) + End(back));
            && |t.operations| == |s.operations|
            && t.operations[stale] == Operation(0, "command:wallet", false, Finished, 1, true, 1)
            && t.operations[back] == Operation(0, "command:start", false, Finished, 1, false, 0)
    ensures !Preserves("command:wallet") && !Preserves("command:start")
  {
    EndRuns(s, stale);
    CurrentIsActive(s.table, 0, 1);
    var t := Run(s, End(stale));
    RunAppend(s, End(stale), End(back));
    EndRuns(t, back);
  }

  lemma ReturningUser(s: System)
    requires Crowded(s, MAX_USERS + 1)
    ensures var t := Run(s, Begin(0, "command:start", MAX_USERS + 1) + (End(0) + End(MAX_USERS + 1)));
            && |t.operations| == MAX_USERS + 2
            && t.operations[0] == Operation(0, "command:wallet", false, Finished, 1, true, 1)
            && t.operations[MAX_USERS + 1] == Operation(0, "command:start", false, Finished, 1, false, 0)
    ensures !Preserves("command:wallet") && !Preserves("command:start")
  {
    var back := MAX_USERS + 1;
    var begin := Begin(0, "command:start", back);
    assert 0 !in s.table.generations.order;
    BeginRuns(s, 0, "command:start");
    NewcomerReserves(s.table, 0, "command:start");
    RunAppend(s, begin, End(0) + End(back));
    StaleEndsFirst(Run(s, begin), 0, back);
  }

  /** With 4096 tracked users the counter of a user with a running, superseded worker is forgotten and
      its generation reused: the stale ordinary result is sent and the current one is discarded. */
  lemma EvictionMisdelivers()
    ensures var t := Run(INITIAL, ForgetfulRun());
            && |t.operations| == MAX_USERS + 2
            && t.operations[0] == Operation(0, "command:wallet", false, Finished, 1, true, 1)
            && t.operations[MAX_USERS + 1] == Operation(0, "command:start", false, Finished, 1, false, 0)
  {
    var back := MAX_USERS + 1;
    CrowdRuns(back);
    ReturningUser(Run(INITIAL, Crowd(back)));
    RunAppend(INITIAL, Crowd(back), Begin(0, "command:start", back) + (End(0) + End(back)));
  }
}

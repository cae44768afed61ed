/** The purchase wizard of one user on top of the operation table: whether a purchase gets the user's slot, and
    whether it still has it, is what the table answers. */
module PurchaseSlots {
  import opened Machines
  import opened Options
  import R = OperationRuns
  import T = OperationTables
  import W = Wizards

  const PURCHASE := "bitrefill:purchase"

  type System = s: R.System | s.table.Coherent() witness R.INITIAL

  /** `slots`: the operation of each wizard task that was granted one. */
  datatype State = State(buyer: T.User, wizard: W.State, system: System, slots: map<nat, nat>)

  datatype Event =
    | Wizard(event: W.Event)
    | End(task: nat)               // the purchase worker's `finally`
    | Others(section: R.Event)     // navigation, and the lock sections of every other operation

  function Start(buyer: T.User): State { State(buyer, W.INITIAL, R.INITIAL, map[]) }

  predicate IsPurchase(st: State, o: R.Operation) {
    o.user == st.buyer && o.action == PURCHASE
  }

  /** The section is one of the buyer's purchases: only the wizard runs those. */
  predicate OfPurchase(st: State, s: R.Event) {
    match s
    case Navigate(_) => false
    case Enter(u, action, _) => u == st.buyer && action == PURCHASE
    case _ => s.op < |st.system.operations| && IsPurchase(st, st.system.operations[s.op])
  }

  /** The reservation in which an accepted order asks for the slot. */
  function Entered(st: State): System {
    R.Step(st.system, R.Enter(st.buyer, PURCHASE, false))
  }

  function Asked(st: State): System {
    R.Step(Entered(st), R.TryReserve(|st.system.operations|))
  }

  predicate Grants(st: State) {
    R.At(Asked(st), |st.system.operations|, R.Reserved)
  }

  predicate Tracks(t: W.Task) {
    match t
    case PurchaseStoring(_, _) => true
    case PurchaseScheduling(_, _) => true
    case CheckingEmail(_, tracked) => tracked
    case Calling(_, tracked) => tracked
    case Succeeded(tracked) => tracked
    case Failed(tracked) => tracked
    case _ => false
  }

  predicate Slotted(st: State, i: nat) {
    i in st.slots && st.slots[i] < |st.system.operations|
  }

  /** What the outside answers, with the table's answers about a purchase put in. */
  function Told(st: State, i: nat, a: W.Answer): W.Answer
    requires i < |st.wizard.tasks|
  {
    var t := st.wizard.tasks[i];
    if t.PurchaseReserving? then a.(yes := Grants(st))
    else if !Tracks(t) || !Slotted(st, i) then a
    else
      var k := st.slots[i];
      if t.PurchaseScheduling? then a.(raised := a.raised || !R.At(st.system, k, R.Reserved))
      else a.(current := T.IsCurrent(st.system.table, st.buyer, st.system.operations[k].generation))
  }

  function Proceeded(st: State, i: nat, a: W.Answer): W.State
    requires i < |st.wizard.tasks|
  {
    W.Step(st.wizard, W.Proceed(i, Told(st, i, a)))
  }

  function ReserveStep(st: State, i: nat, a: W.Answer): State
    requires i < |st.wizard.tasks|
  {
    var n := |st.system.operations|;
    if Grants(st) then State(st.buyer, Proceeded(st, i, a), Asked(st), st.slots[i := n])
    else State(st.buyer, Proceeded(st, i, a), R.Step(Asked(st), R.Release(n)), st.slots)
  }

  /** A worker that cannot be started gives the slot back, and then the session. */
  function ScheduleStep(st: State, i: nat, k: nat, a: W.Answer): State
    requires i < |st.wizard.tasks|
  {
    if !R.At(st.system, k, R.Reserved) then st.(wizard := Proceeded(st, i, a))
    else if a.raised then st.(system := R.Step(R.Step(st.system, R.Schedule(k, false)), R.AbortFinish(k)))
    else st.(wizard := Proceeded(st, i, a), system := R.Step(st.system, R.Schedule(k, true)))
  }

  function ProceedStep(st: State, i: nat, a: W.Answer): State
    requires i < |st.wizard.tasks|
  {
    var t := st.wizard.tasks[i];
    if t.PurchaseReserving? then ReserveStep(st, i, a)
    else if t.PurchaseScheduling? && Slotted(st, i) then ScheduleStep(st, i, st.slots[i], a)
    else st.(wizard := Proceeded(st, i, a))
  }

  function EndStep(st: State, i: nat): State {
    if i < |st.wizard.tasks| && st.wizard.tasks[i].Done? && i in st.slots
    then st.(system := R.Step(R.Step(st.system, R.WorkReturns(st.slots[i])), R.Finish(st.slots[i])))
    else st
  }

  function Step(st: State, e: Event): State {
    match e
    case Wizard(w) =>
      if w.Proceed? && w.task < |st.wizard.tasks| then ProceedStep(st, w.task, w.answer)
      else st.(wizard := W.Step(st.wizard, w))
    case End(i) => EndStep(st, i)
    case Others(s) => if OfPurchase(st, s) then st else st.(system := R.Step(st.system, s))
  }

  function Run(st: State, events: seq<Event>): State {
    Fold(Step, st, events)
  }

  // ----- The join runs both -----

  ghost predicate Reaches(s: System, t: R.System) {
    exists sections: seq<R.Event> :: R.Run(s, sections) == t
  }

  lemma NoSection(s: System)
    ensures Reaches(s, s)
  {
    var none: seq<R.Event> := [];
    assert R.Run(s, none) == s;
  }

  lemma OneSection(s: System, t: System, e: R.Event)
    requires Reaches(s, t)
    ensures Reaches(s, R.Step(t, e))
  {
    var sections: seq<R.Event> :| R.Run(s, sections) == t;
    R.RunAppend(s, sections, [e]);
    R.RunOne(t, [e]);
  }

  lemma SectionsJoin(s: System, t: System, r: R.System)
    requires Reaches(s, t) && Reaches(t, r)
    ensures Reaches(s, r)
  {
    var first: seq<R.Event> :| R.Run(s, first) == t;
    var second: seq<R.Event> :| R.Run(t, second) == r;
    R.RunAppend(s, first, second);
  }

  lemma WizardRuns(st: State, e: Event)
    ensures Reachable(W.Step, st.wizard, Step(st, e).wizard)
  {
    hide W.Step, R.Step;
    StartIsReachable(W.Step, st.wizard);
    if e.Wizard? {
      var w := e.event;
      if w.Proceed? && w.task < |st.wizard.tasks| {
        var _ := Follows(W.Step, st.wizard, st.wizard, W.Proceed(w.task, Told(st, w.task, w.answer)));
      } else {
        var _ := Follows(W.Step, st.wizard, st.wizard, w);
      }
    }
  }

  lemma ProceedRuns(st: State, i: nat, a: W.Answer)
    requires i < |st.wizard.tasks|
    ensures Reaches(st.system, ProceedStep(st, i, a).system)
  {
    hide W.Step, R.Step, Reaches;
    var n := |st.system.operations|;
    NoSection(st.system);
    OneSection(st.system, st.system, R.Enter(st.buyer, PURCHASE, false));
    OneSection(st.system, Entered(st), R.TryReserve(n));
    OneSection(st.system, Asked(st), R.Release(n));
    if i in st.slots {
      var k := st.slots[i];
      OneSection(st.system, st.system, R.Schedule(k, true));
      OneSection(st.system, st.system, R.Schedule(k, false));
      OneSection(st.system, R.Step(st.system, R.Schedule(k, false)), R.AbortFinish(k));
    }
  }

  lemma SystemRuns(st: State, e: Event)
    ensures Reaches(st.system, Step(st, e).system)
  {
    hide W.Step, R.Step, Reaches, ProceedStep;
    NoSection(st.system);
    match e
    case Others(s) => OneSection(st.system, st.system, s);
    case End(i) =>
      if i in st.slots {
        var k := st.slots[i];
        OneSection(st.system, st.system, R.WorkReturns(k));
        OneSection(st.system, R.Step(st.system, R.WorkReturns(k)), R.Finish(k));
      }
    case Wizard(w) =>
      if w.Proceed? && w.task < |st.wizard.tasks| { ProceedRuns(st, w.task, w.answer); }
  }

  /** Every run of the join is a run of the wizard beside a run of the lock sections, so what is proved of either
      holds of the join. */
  lemma {:induction false} RunsBoth(st: State, events: seq<Event>)
    ensures Reachable(W.Step, st.wizard, Run(st, events).wizard) && Reaches(st.system, Run(st, events).system)
    decreases |events|
  {
    hide Step, Reaches;
    if events == [] {
      StartIsReachable(W.Step, st.wizard);
      NoSection(st.system);
    } else {
      var next := Step(st, events[0]);
      WizardRuns(st, events[0]);
      SystemRuns(st, events[0]);
      RunsBoth(next, events[1..]);
      Onwards(W.Step, st.wizard, next.wizard, Run(next, events[1..]).wizard);
      SectionsJoin(st.system, next.system, Run(next, events[1..]).system);
    }
  }

  // ----- Every purchase under way has a slot -----

  /** How far a task that was granted a slot is, and how far its operation. */
  predicate Fits(t: W.Task, p: R.Phase) {
    match t
    case PurchaseStoring(_, _) => p == R.Reserved
    case PurchaseScheduling(_, _) => p == R.Reserved || p == R.Aborted
    case Storing(_) => p == R.Working
    case Done => p == R.Working || p == R.Finished || p == R.Aborted
    case _ => Tracks(t) && p == R.Working
  }

  predicate HasSlot(st: State, i: nat) {
    && i in st.slots && i < |st.wizard.tasks| && st.slots[i] < |st.system.operations|
    && var o := st.system.operations[st.slots[i]];
    IsPurchase(st, o) && !o.chat && Fits(st.wizard.tasks[i], o.phase)
  }

  ghost predicate Linked(st: State) {
    && (forall i :: i in st.slots ==> HasSlot(st, i))
    && (forall i, j :: i in st.slots && j in st.slots && i != j ==> st.slots[i] != st.slots[j])
    && (forall i :: 0 <= i < |st.wizard.tasks| && Tracks(st.wizard.tasks[i]) ==> i in st.slots)
  }

  /** An operation as far as its slot is concerned. */
  predicate Alike(o: R.Operation, p: R.Operation) {
    o.user == p.user && o.action == p.action && o.chat == p.chat && o.phase == p.phase && o.generation == p.generation
  }

  /** The lock sections of other operations, and navigation, leave purchases where they are. */
  lemma OthersLeave(st: State, s: R.Event, k: nat)
    requires !OfPurchase(st, s) && k < |st.system.operations| && IsPurchase(st, st.system.operations[k])
    ensures var t := R.Step(st.system, s);
            k < |t.operations| && Alike(st.system.operations[k], t.operations[k])
  {
  }

  /** What becomes of a piece of running code outside the reservation and the scheduling of a purchase. */
  lemma ActFits(session: Option<W.Session>, country: string, l: W.Ledger, t: W.Task, a: W.Answer, p: R.Phase)
    requires !t.PurchaseReserving? && !t.PurchaseScheduling?
    ensures var next := W.Act(session, country, l, t, a).task;
            && (Fits(t, p) ==> Fits(next, p))
            && (!Tracks(t) ==> !Tracks(next))
  {
  }

  lemma OthersKeepLinked(st: State, s: R.Event)
    requires Linked(st) && !OfPurchase(st, s)
    ensures Linked(Step(st, Others(s)))
  {
    var t := Step(st, Others(s));
    forall i | i in t.slots
      ensures HasSlot(t, i)
    {
      assert HasSlot(st, i);
      OthersLeave(st, s, st.slots[i]);
    }
  }

  /** Only the wizard moved, and not through a reservation or a scheduling. */
  lemma MovedKeepsLinked(st: State, i: nat, a: W.Answer)
    requires Linked(st) && i < |st.wizard.tasks|
    requires !st.wizard.tasks[i].PurchaseReserving? && !st.wizard.tasks[i].PurchaseScheduling?
    ensures Linked(st.(wizard := Proceeded(st, i, a)))
  {
    var t := st.(wizard := Proceeded(st, i, a));
    if i in st.slots {
      assert HasSlot(st, i);
      ActFits(st.wizard.session, W.CountryOf(st.wizard), st.wizard.ledger, st.wizard.tasks[i], Told(st, i, a),
              st.system.operations[st.slots[i]].phase);
    } else {
      ActFits(st.wizard.session, W.CountryOf(st.wizard), st.wizard.ledger, st.wizard.tasks[i], Told(st, i, a),
              R.Entered);
    }
    forall j | j in t.slots
      ensures HasSlot(t, j)
    {
      assert HasSlot(st, j);
    }
  }

  /** The operation an accepted order enters with, before and after it asked for the slot. */
  lemma AskedIs(st: State)
    ensures var t, n := Asked(st), |st.system.operations|;
            && |t.operations| == n + 1 && IsPurchase(st, t.operations[n]) && !t.operations[n].chat
            && t.operations[n].phase == (if Grants(st) then R.Reserved else R.Refusing)
            && t.table == T.Reserved(st.system.table, st.buyer, PURCHASE).0
            && (Grants(st) <==> T.Reserved(st.system.table, st.buyer, PURCHASE).1.Some?)
            && (Grants(st) ==> T.Reserved(st.system.table, st.buyer, PURCHASE).1 == Some(t.operations[n].generation))
            && forall k :: 0 <= k < n ==> Alike(st.system.operations[k], t.operations[k])
  {
    assert Entered(st).table == st.system.table;
  }

  /** One task moved, with its operation or to a new one. */
  ghost predicate OneMoved(st: State, t: State, i: nat) {
    && t.buyer == st.buyer && i < |st.wizard.tasks| == |t.wizard.tasks|
    && |st.system.operations| <= |t.system.operations|
    && (forall j :: 0 <= j < |st.wizard.tasks| && j != i ==> t.wizard.tasks[j] == st.wizard.tasks[j])
    && (forall k :: 0 <= k < |st.system.operations| && (i in st.slots ==> k != st.slots[i]) ==>
        Alike(st.system.operations[k], t.system.operations[k]))
    && (t.slots == st.slots || (i !in st.slots && t.slots == st.slots[i := |st.system.operations|]))
  }

  lemma OthersHaveSlots(st: State, t: State, i: nat, j: nat)
    requires Linked(st) && OneMoved(st, t, i) && j in st.slots && j != i
    ensures HasSlot(t, j)
  {
    assert HasSlot(st, j);
  }

  lemma MovingKeepsLinked(st: State, t: State, i: nat)
    requires Linked(st) && OneMoved(st, t, i)
    requires i in t.slots ==> HasSlot(t, i)
    requires Tracks(t.wizard.tasks[i]) ==> i in t.slots
    ensures Linked(t)
  {
    forall j | j in st.slots && j != i
      ensures HasSlot(t, j)
    {
      OthersHaveSlots(st, t, i, j);
    }
  }

  /** An accepted order goes on iff the slot was granted. */
  lemma ReservingMoves(st: State, i: nat, a: W.Answer)
    requires i < |st.wizard.tasks| && st.wizard.tasks[i].PurchaseReserving?
    ensures var t := ReserveStep(st, i, a).wizard;
            && |t.tasks| == |st.wizard.tasks|
            && (if Grants(st) then t.tasks[i].PurchaseStoring? else t.tasks[i].Done?) && t.calls == st.wizard.calls
            && forall j :: 0 <= j < |t.tasks| && j != i ==> t.tasks[j] == st.wizard.tasks[j]
  {
    hide Grants, Asked;
  }

  lemma ReleaseLeaves(s: System, n: nat)
    requires n < |s.operations|
    ensures var t := R.Step(s, R.Release(n));
            |t.operations| == |s.operations| && forall k :: 0 <= k < n ==> t.operations[k] == s.operations[k]
  {
  }

  lemma ReserveKeepsLinked(st: State, i: nat, a: W.Answer)
    requires Linked(st) && i < |st.wizard.tasks| && st.wizard.tasks[i].PurchaseReserving?
    ensures Linked(ReserveStep(st, i, a))
  {
    hide Grants, Asked, Proceeded, R.Step;
    AskedIs(st);
    ReservingMoves(st, i, a);
    assert i !in st.slots;
    if !Grants(st) { ReleaseLeaves(Asked(st), |st.system.operations|); }
    MovingKeepsLinked(st, ReserveStep(st, i, a), i);
  }

  lemma SchedulingMoves(st: State, i: nat, a: W.Answer)
    requires i < |st.wizard.tasks| && st.wizard.tasks[i].PurchaseScheduling?
    ensures var t := Proceeded(st, i, a);
            && |t.tasks| == |st.wizard.tasks|
            && (if Told(st, i, a).raised then t.tasks[i].Done? else t.tasks[i].CheckingEmail? && t.tasks[i].tracked)
            && forall j :: 0 <= j < |t.tasks| && j != i ==> t.tasks[j] == st.wizard.tasks[j]
  {
  }

  lemma AbortIs(s: System, k: nat)
    requires R.At(s, k, R.Reserved)
    ensures var t := R.Step(R.Step(s, R.Schedule(k, false)), R.AbortFinish(k));
            t.operations == s.operations[k := s.operations[k].(phase := R.Aborted)]
  {
  }

  lemma ScheduleKeepsLinked(st: State, i: nat, a: W.Answer)
    requires Linked(st) && i in st.slots && i < |st.wizard.tasks| && st.wizard.tasks[i].PurchaseScheduling?
    ensures Linked(ScheduleStep(st, i, st.slots[i], a))
  {
    hide Proceeded;
    var k := st.slots[i];
    assert HasSlot(st, i);
    SchedulingMoves(st, i, a);
    if R.At(st.system, k, R.Reserved) && a.raised {
      AbortIs(st.system, k);
      MovingKeepsLinked(st, ScheduleStep(st, i, k, a), i);
    } else {
      MovingKeepsLinked(st, ScheduleStep(st, i, k, a), i);
    }
  }

  lemma EndKeepsLinked(st: State, i: nat)
    requires Linked(st)
    ensures Linked(EndStep(st, i))
  {
    forall j | j in st.slots
      ensures HasSlot(EndStep(st, i), j)
    {
      assert HasSlot(st, j);
    }
  }

  lemma StepKeepsLinked(st: State, e: Event)
    requires Linked(st)
    ensures Linked(Step(st, e))
  {
    match e
    case Others(s) => if !OfPurchase(st, s) { OthersKeepLinked(st, s); }
    case End(i) => EndKeepsLinked(st, i);
    case Wizard(w) => WizardKeepsLinked(st, w);
  }

  lemma WizardKeepsLinked(st: State, w: W.Event)
    requires Linked(st)
    ensures Linked(Step(st, Wizard(w)))
  {
    if w.Proceed? && w.task < |st.wizard.tasks| {
      var t := st.wizard.tasks[w.task];
      if t.PurchaseReserving? {
        ReserveKeepsLinked(st, w.task, w.answer);
      } else if t.PurchaseScheduling? {
        assert HasSlot(st, w.task);
        ScheduleKeepsLinked(st, w.task, w.answer);
      } else {
        MovedKeepsLinked(st, w.task, w.answer);
      }
    } else {
      ArrivalKeepsLinked(st, w);
    }
  }

  /** A message, a command or a stored session starts at most one piece of code, and no purchase. */
  lemma ArrivalKeepsLinked(st: State, w: W.Event)
    requires Linked(st) && (w.Proceed? ==> w.task >= |st.wizard.tasks|)
    ensures Linked(st.(wizard := W.Step(st.wizard, w)))
  {
    var t := st.(wizard := W.Step(st.wizard, w));
    forall j | j in st.slots
      ensures HasSlot(t, j)
    {
      assert HasSlot(st, j);
    }
  }

  // ----- Two purchases of one user -----

  predicate UnderWay(st: State, i: nat) {
    i in st.slots && st.slots[i] < |st.system.operations| && R.Holds(st.system.operations[st.slots[i]])
  }

  /** Navigation or another reservation of the user came after this purchase's own. */
  predicate Superseded(st: State, i: nat)
    requires UnderWay(st, i)
  {
    st.system.operations[st.slots[i]].superseded
  }

  /** The step grants a generation that an outstanding operation of the same user holds. */
  ghost predicate Reuses(st: State, e: Event) {
    match e
    case Others(s) => !OfPurchase(st, s) && R.Reuses(st.system, s)
    case Wizard(w) =>
      w.Proceed? && w.task < |st.wizard.tasks| && st.wizard.tasks[w.task].PurchaseReserving?
      && R.Reuses(Entered(st), R.TryReserve(|st.system.operations|))
    case End(_) => false
  }

  ghost predicate NeverReuses(st: State, events: seq<Event>)
    decreases |events|
  {
    events != [] ==> !Reuses(st, events[0]) && NeverReuses(Step(st, events[0]), events[1..])
  }

  lemma SectionKeepsExact(s: System, e: R.Event)
    requires R.Exact(s) && !e.TryReserve?
    ensures R.Exact(R.Step(s, e))
  {
    R.OtherStepsKeepExact(s, e);
  }

  lemma ReserveKeepsExact(st: State, i: nat, a: W.Answer)
    requires i < |st.wizard.tasks| && R.Exact(st.system) && !R.Reuses(Entered(st), R.TryReserve(|st.system.operations|))
    ensures R.Exact(ReserveStep(st, i, a).system)
  {
    var n := |st.system.operations|;
    SectionKeepsExact(st.system, R.Enter(st.buyer, PURCHASE, false));
    R.OtherStepsKeepExact(Entered(st), R.TryReserve(n));
    SectionKeepsExact(Asked(st), R.Release(n));
  }

  lemma ScheduleKeepsExact(st: State, i: nat, k: nat, a: W.Answer)
    requires i < |st.wizard.tasks| && R.Exact(st.system)
    ensures R.Exact(ScheduleStep(st, i, k, a).system)
  {
    SectionKeepsExact(st.system, R.Schedule(k, true));
    SectionKeepsExact(st.system, R.Schedule(k, false));
    SectionKeepsExact(R.Step(st.system, R.Schedule(k, false)), R.AbortFinish(k));
  }

  lemma EndKeepsExact(st: State, i: nat)
    requires R.Exact(st.system)
    ensures R.Exact(EndStep(st, i).system)
  {
    if i in st.slots {
      var k := st.slots[i];
      SectionKeepsExact(st.system, R.WorkReturns(k));
      SectionKeepsExact(R.Step(st.system, R.WorkReturns(k)), R.Finish(k));
    }
  }

  lemma StepKeepsExact(st: State, e: Event)
    requires R.Exact(st.system) && !Reuses(st, e)
    ensures R.Exact(Step(st, e).system)
  {
    hide R.Exact, R.Step, R.Reuses;
    match e
    case Others(s) => if !OfPurchase(st, s) { R.OtherStepsKeepExact(st.system, s); }
    case End(i) => EndKeepsExact(st, i);
    case Wizard(w) =>
      if w.Proceed? && w.task < |st.wizard.tasks| {
        var t := st.wizard.tasks[w.task];
        if t.PurchaseReserving? {
          ReserveKeepsExact(st, w.task, w.answer);
        } else if t.PurchaseScheduling? && w.task in st.slots {
          ScheduleKeepsExact(st, w.task, st.slots[w.task], w.answer);
        }
      }
  }

  lemma {:induction false} RunIsLinked(st: State, events: seq<Event>)
    requires Linked(st)
    ensures Linked(Run(st, events))
    ensures R.Exact(st.system) && NeverReuses(st, events) ==> R.Exact(Run(st, events).system)
    decreases |events|
  {
    hide Linked, R.Exact, Reuses, Step;
    if events != [] {
      StepKeepsLinked(st, events[0]);
      if R.Exact(st.system) && !Reuses(st, events[0]) { StepKeepsExact(st, events[0]); }
      RunIsLinked(Step(st, events[0]), events[1..]);
    }
  }

  lemma OneIsSuperseded(st: State, i: nat, j: nat)
    requires Linked(st) && R.Exact(st.system) && i != j && UnderWay(st, i) && UnderWay(st, j)
    ensures Superseded(st, i) || Superseded(st, j)
  {
    assert HasSlot(st, i) && HasSlot(st, j);
    var o, p := st.system.operations[st.slots[i]], st.system.operations[st.slots[j]];
    assert R.CurrentIsExact(st.system) && R.HoldersDistinct(st.system);
    assert o.generation != p.generation;
  }

  /** A purchase that is calling the gateway has its slot. */
  lemma CallingIsUnderWay(st: State, i: nat)
    requires Linked(st) && i < |st.wizard.tasks| && st.wizard.tasks[i].Calling? && st.wizard.tasks[i].tracked
    ensures UnderWay(st, i)
  {
    assert HasSlot(st, i);
  }

  /** Over every run that grants no held generation again: of two purchases of one user that are under way at once,
      at least one was superseded, by navigation or by another operation of that user. */
  lemma OneCurrentPurchase(buyer: T.User, events: seq<Event>, i: nat, j: nat)
    requires NeverReuses(Start(buyer), events) && i != j
    requires UnderWay(Run(Start(buyer), events), i) && UnderWay(Run(Start(buyer), events), j)
    ensures Superseded(Run(Start(buyer), events), i) || Superseded(Run(Start(buyer), events), j)
  {
    RunIsLinked(Start(buyer), events);
    OneIsSuperseded(Run(Start(buyer), events), i, j);
  }

  // ----- While a purchase has the slot -----

  /** Operation k has its user's slot, under a generation nothing else of that user holds. */
  ghost predicate Occupies(s: R.System, u: T.User, k: nat) {
    && k < |s.operations|
    && var o := s.operations[k];
    && o.user == u && R.Holds(o) && u in s.table.active && s.table.active[u] == T.Active(o.generation, PURCHASE)
    && forall j :: 0 <= j < |s.operations| && j != k && s.operations[j].user == u && R.Holds(s.operations[j]) ==>
         s.operations[j].generation != o.generation
  }

  predicate Over(s: R.System, k: nat) {
    k < |s.operations| && s.operations[k].phase in {R.Refused, R.Aborted, R.Finished}
  }

  /** The section is neither navigation by u nor a reservation of another action for u. */
  predicate Spares(s: R.System, e: R.Event, u: T.User) {
    && (e.Navigate? ==> e.user != u)
    && (e.TryReserve? && e.op < |s.operations| && s.operations[e.op].user == u ==>
        s.operations[e.op].action == PURCHASE)
  }

  lemma OtherUsersKeepOwner(s: System, v: T.User, action: string, u: T.User)
    requires u != v && u in s.table.active
    ensures var t := T.Reserved(s.table, v, action).0;
            u in t.active && t.active[u] == s.table.active[u]
  {
  }

  lemma ReservingKeepsOwner(s: System, op: nat, u: T.User, k: nat)
    requires Occupies(s, u, k) && Spares(s, R.TryReserve(op), u)
    ensures Occupies(R.Step(s, R.TryReserve(op)), u, k)
  {
    if R.At(s, op, R.Entered) && s.operations[op].user != u {
      OtherUsersKeepOwner(s, s.operations[op].user, s.operations[op].action, u);
    }
  }

  lemma EndingKeepsOwner(s: System, e: R.Event, u: T.User, k: nat)
    requires Occupies(s, u, k) && (e.Finish? || e.AbortFinish?)
    ensures Occupies(R.Step(s, e), u, k) || Over(R.Step(s, e), k)
  {
  }

  lemma SectionKeepsOwner(s: System, e: R.Event, u: T.User, k: nat)
    requires Occupies(s, u, k) && Spares(s, e, u)
    ensures Occupies(R.Step(s, e), u, k) || Over(R.Step(s, e), k)
  {
    match e
    case TryReserve(op) => ReservingKeepsOwner(s, op, u, k);
    case Finish(_) => EndingKeepsOwner(s, e, u, k);
    case AbortFinish(_) => EndingKeepsOwner(s, e, u, k);
    case _ =>
  }

  lemma OverStays(s: System, e: R.Event, k: nat)
    requires Over(s, k)
    ensures Over(R.Step(s, e), k)
  {
    hide T.Reserved, T.Finished, T.Invalidated, T.IsCurrent;
  }

  /** Whoever has the slot keeps it until it is over, and what is over stays so. */
  ghost predicate Keeps(s: R.System, t: R.System, u: T.User, k: nat) {
    (Occupies(s, u, k) ==> Occupies(t, u, k) || Over(t, k)) && (Over(s, k) ==> Over(t, k))
  }

  lemma SectionKeeps(s: System, e: R.Event, u: T.User, k: nat)
    requires Spares(s, e, u)
    ensures Keeps(s, R.Step(s, e), u, k)
  {
    if Over(s, k) { OverStays(s, e, k); }
    if Occupies(s, u, k) { SectionKeepsOwner(s, e, u, k); }
  }

  /** The user does not navigate, and no other operation of that user asks for the slot. */
  predicate Spared(st: State, e: Event) {
    e.Others? ==> Spares(st.system, e.section, st.buyer)
  }

  ghost predicate Undisturbed(st: State, events: seq<Event>)
    decreases |events|
  {
    events != [] ==> Spared(st, events[0]) && Undisturbed(Step(st, events[0]), events[1..])
  }

  lemma OwnerExcludes(st: State, k: nat)
    requires Occupies(st.system, st.buyer, k)
    ensures !Grants(st)
  {
    AskedIs(st);
  }

  lemma ReserveKeepsOwner(st: State, i: nat, a: W.Answer, k: nat)
    requires i < |st.wizard.tasks|
    ensures Keeps(st.system, ReserveStep(st, i, a).system, st.buyer, k)
    ensures Occupies(st.system, st.buyer, k) ==> ReserveStep(st, i, a).slots == st.slots
  {
    var n := |st.system.operations|;
    if Occupies(st.system, st.buyer, k) { OwnerExcludes(st, k); }
    SectionKeeps(st.system, R.Enter(st.buyer, PURCHASE, false), st.buyer, k);
    SectionKeeps(Entered(st), R.TryReserve(n), st.buyer, k);
    SectionKeeps(Asked(st), R.Release(n), st.buyer, k);
  }

  lemma ScheduleKeepsOwner(st: State, i: nat, j: nat, a: W.Answer, k: nat)
    requires i < |st.wizard.tasks|
    ensures Keeps(st.system, ScheduleStep(st, i, j, a).system, st.buyer, k)
  {
    hide Occupies, Over, R.Step;
    SectionKeeps(st.system, R.Schedule(j, true), st.buyer, k);
    SectionKeeps(st.system, R.Schedule(j, false), st.buyer, k);
    SectionKeeps(R.Step(st.system, R.Schedule(j, false)), R.AbortFinish(j), st.buyer, k);
  }

  lemma EndKeepsOwner(st: State, i: nat, k: nat)
    ensures Keeps(st.system, EndStep(st, i).system, st.buyer, k)
  {
    hide Occupies, Over, R.Step;
    if i in st.slots {
      SectionKeeps(st.system, R.WorkReturns(st.slots[i]), st.buyer, k);
      SectionKeeps(R.Step(st.system, R.WorkReturns(st.slots[i])), R.Finish(st.slots[i]), st.buyer, k);
    }
  }

  lemma StepKeepsOwner(st: State, e: Event, k: nat)
    requires Spared(st, e)
    ensures var t := Step(st, e);
            && t.buyer == st.buyer && Keeps(st.system, t.system, st.buyer, k)
            && (Occupies(st.system, st.buyer, k) ==> t.slots == st.slots)
  {
    hide Occupies, Over, R.Step;
    match e
    case Others(s) => if !OfPurchase(st, s) { SectionKeeps(st.system, s, st.buyer, k); }
    case End(i) => EndKeepsOwner(st, i, k);
    case Wizard(w) =>
      if w.Proceed? && w.task < |st.wizard.tasks| {
        var t := st.wizard.tasks[w.task];
        if t.PurchaseReserving? {
          ReserveKeepsOwner(st, w.task, w.answer, k);
        } else if t.PurchaseScheduling? && w.task in st.slots {
          ScheduleKeepsOwner(st, w.task, st.slots[w.task], w.answer, k);
        }
      }
  }

  lemma {:induction false} RunKeepsOwner(st: State, events: seq<Event>, k: nat)
    requires Undisturbed(st, events)
    ensures var t := Run(st, events);
            && t.buyer == st.buyer && Keeps(st.system, t.system, st.buyer, k)
            && (Occupies(st.system, st.buyer, k) ==> Over(t.system, k) || t.slots == st.slots)
    decreases |events|
  {
    hide Occupies, Over, Step;
    if events != [] {
      StepKeepsOwner(st, events[0], k);
      RunKeepsOwner(Step(st, events[0]), events[1..], k);
    }
  }

  /** One step of a piece of the wizard's code. */
  function Moves(i: nat, a: W.Answer): Event { Wizard(W.Proceed(i, a)) }

  lemma GrantOwns(st: State)
    requires Grants(st) && !R.Reuses(Entered(st), R.TryReserve(|st.system.operations|))
    ensures Occupies(Asked(st), st.buyer, |st.system.operations|)
  {
    var n := |st.system.operations|;
    AskedIs(st);
    var g := Asked(st).operations[n].generation;
    assert R.Granted(Entered(st), R.TryReserve(n)) == Some(g);
    forall j | 0 <= j < n && Asked(st).operations[j].user == st.buyer && R.Holds(Asked(st).operations[j])
      ensures Asked(st).operations[j].generation != g
    {
      assert !R.Owns(Entered(st).operations[j], st.buyer, g);
    }
  }

  /** From any state at all: once a purchase has been granted the slot, and until it is over, no other purchase of
      that user gets one, unless the user navigates or starts another operation. */
  lemma SlotExcludes(st: State, i: nat, a: W.Answer, events: seq<Event>)
    requires i < |st.wizard.tasks| && st.wizard.tasks[i].PurchaseReserving? && Grants(st)
    requires !Reuses(st, Moves(i, a)) && Undisturbed(Step(st, Moves(i, a)), events)
    ensures var granted := Step(st, Moves(i, a));
            var t := Run(granted, events);
            && UnderWay(granted, i)
            && (Over(t.system, granted.slots[i]) || (t.slots == granted.slots && UnderWay(t, i)))
  {
    GrantOwns(st);
    RunKeepsOwner(Step(st, Moves(i, a)), events, |st.system.operations|);
  }

  lemma IdleGrants(st: State)
    requires st.buyer in st.system.table.generations.entries && st.buyer !in st.system.table.active
    ensures Grants(st)
  {
    AskedIs(st);
  }

  lemma GrantSupersedes(st: State, k: nat)
    requires Grants(st) && k < |st.system.operations| && IsPurchase(st, st.system.operations[k])
    requires R.Holds(st.system.operations[k])
    ensures R.Holds(Asked(st).operations[k]) && Asked(st).operations[k].superseded
  {
  }

  lemma GrantIsNew(st: State)
    requires Grants(st)
    ensures !Asked(st).operations[|st.system.operations|].superseded
  {
  }

  /** A granted purchase is under way, and so is what it supersedes. */
  lemma GrantedSlot(st: State, j: nat, a: W.Answer)
    requires j < |st.wizard.tasks| && st.wizard.tasks[j].PurchaseReserving? && Grants(st)
    ensures UnderWay(Step(st, Moves(j, a)), j) && !Superseded(Step(st, Moves(j, a)), j)
    ensures forall i :: i != j && UnderWay(st, i) && IsPurchase(st, st.system.operations[st.slots[i]]) ==>
              UnderWay(Step(st, Moves(j, a)), i) && Superseded(Step(st, Moves(j, a)), i)
  {
    hide Grants, Asked, Proceeded;
    AskedIs(st);
    GrantIsNew(st);
    forall i | i != j && UnderWay(st, i) && IsPurchase(st, st.system.operations[st.slots[i]])
      ensures R.Holds(Asked(st).operations[st.slots[i]]) && Asked(st).operations[st.slots[i]].superseded
    {
      GrantSupersedes(st, st.slots[i]);
    }
  }

  lemma NavigationLeaves(st: State, i: nat)
    requires Linked(st) && UnderWay(st, i)
    ensures var left := Step(st, Others(R.Navigate(st.buyer)));
            && UnderWay(left, i) && IsPurchase(left, left.system.operations[left.slots[i]])
            && left.wizard == st.wizard && left.slots == st.slots && left.buyer == st.buyer
            && left.buyer in left.system.table.generations.entries && left.buyer !in left.system.table.active
  {
    assert HasSlot(st, i);
  }

  /** After navigation the slot is free again, whatever is still under way. */
  lemma NavigationFrees(st: State, i: nat, j: nat, a: W.Answer)
    requires Linked(st) && UnderWay(st, i) && j < |st.wizard.tasks| && st.wizard.tasks[j].PurchaseReserving?
    ensures var t := Step(Step(st, Others(R.Navigate(st.buyer))), Moves(j, a));
            i != j && UnderWay(t, i) && UnderWay(t, j) && Superseded(t, i) && !Superseded(t, j)
  {
    hide R.Step, Grants, Asked, Proceeded;
    assert HasSlot(st, i);
    var left := Step(st, Others(R.Navigate(st.buyer)));
    NavigationLeaves(st, i);
    IdleGrants(left);
    GrantedSlot(left, j, a);
  }

  // ----- Two purchases at once can be reached -----

  /** The outside answers well, and the delivery email is known. */
  const SMOOTH := W.Fine(W.NO_PRODUCT, [], []).(yes := false)

  /** Pieces of code that have nothing to do with the slot. */
  predicate Plain(t: W.Task) {
    !t.PurchaseReserving? && !Tracks(t)
  }

  lemma Walks(start: State, st: State, w: W.Event) returns (t: State)
    requires Reachable(Step, start, st)
    requires w.Proceed? ==> w.task < |st.wizard.tasks| && Plain(st.wizard.tasks[w.task])
    ensures Reachable(Step, start, t) && t == st.(wizard := W.Step(st.wizard, w))
  {
    hide W.Step;
    t := Follows(Step, start, st, Wizard(w));
  }

  lemma Acts(start: State, st: State, i: nat, a: W.Answer, e: W.Effect) returns (t: State)
    requires Reachable(Step, start, st) && i < |st.wizard.tasks| && Plain(st.wizard.tasks[i])
    requires e == W.Act(st.wizard.session, W.CountryOf(st.wizard), st.wizard.ledger, st.wizard.tasks[i], a)
    ensures Reachable(Step, start, t) && t == st.(wizard := W.Applied(st.wizard, i, e))
  {
    hide W.Act;
    t := Walks(start, st, W.Proceed(i, a));
  }

  /** The wizard went on by itself, and left these pieces of code behind. */
  predicate Walked(st: State, t: State, tasks: seq<W.Task>) {
    && t.buyer == st.buyer && t.system == st.system && t.slots == st.slots
    && t.wizard.calls == st.wizard.calls && t.wizard.tasks == st.wizard.tasks + tasks
  }

  function Picking(r: W.Review): W.Session {
    W.Fresh(W.SelectPackage, r.country).(product := Some(r.product), packages := [r.package])
  }

  function Paying(r: W.Review): W.Session {
    W.Fresh(W.SelectToken, r.country).(product := Some(r.product), package := Some(r.package), tokens := [r.token])
  }

  /** An order for a product that asks for no recipient. */
  predicate Simple(r: W.Review) {
    W.CountryCode(r.country) && W.Required(r.product.fields) == [] && r.recipient == map[]
  }

  lemma AsksForProduct(start: State, st: State, r: W.Review) returns (t: State)
    requires Reachable(Step, start, st) && Simple(r)
    ensures Reachable(Step, start, t)
    ensures Walked(st, t, [W.ProductReserving(r.country, W.Fresh(W.SelectProduct, r.country))])
    ensures t.wizard.ledger == st.wizard.ledger
  {
    hide Step;
    var i, l := |st.wizard.tasks|, st.wizard.ledger;
    var listed := W.Fresh(W.SelectProduct, r.country);
    var a := W.Fine(r.product, [r.package], []).(country := r.country);
    t := Walks(start, st, W.Browse(Some(listed)));
    t := Walks(start, t, W.Receive(W.FIRST));
    t := Acts(start, t, i, a, W.Go(W.Handling(W.SelectProduct, W.FIRST), l));
    t := Acts(start, t, i, a, W.Go(W.ProductReserving(r.country, listed), l));
  }

  lemma PicksProduct(start: State, st: State, r: W.Review) returns (t: State)
    requires Reachable(Step, start, st) && Simple(r)
    ensures Reachable(Step, start, t) && Walked(st, t, [W.Done]) && t.wizard.session == Some(Picking(r))
  {
    hide Step;
    var i, l := |st.wizard.tasks|, st.wizard.ledger;
    var listed := W.Fresh(W.SelectProduct, r.country);
    var loading := W.Fresh(W.LoadingProduct, r.country).(previous := Some(listed));
    var a := W.Fine(r.product, [r.package], []).(country := r.country);
    t := AsksForProduct(start, st, r);
    t := Acts(start, t, i, a, W.Put(Some(loading), W.ProductLoading(r.country, listed), l));
    t := Acts(start, t, i, a, W.Put(Some(Picking(r)), W.Done, l));
  }

  lemma OpensTokens(start: State, st: State, r: W.Review) returns (t: State)
    requires Reachable(Step, start, st) && Simple(r) && st.wizard.session == Some(Picking(r))
    ensures Reachable(Step, start, t)
    ensures Walked(st, t, [W.TokensOpening(r.product, r.package, r.country, map[])])
    ensures t.wizard.session == st.wizard.session && t.wizard.ledger == st.wizard.ledger
  {
    hide Step;
    var i, l := |st.wizard.tasks|, st.wizard.ledger;
    t := Walks(start, st, W.Receive(W.FIRST));
    t := Acts(start, t, i, SMOOTH, W.Go(W.Handling(W.SelectPackage, W.FIRST), l));
    t := Acts(start, t, i, SMOOTH, W.Go(W.TokensOpening(r.product, r.package, r.country, map[]), l));
  }

  lemma PicksPackage(start: State, st: State, r: W.Review) returns (t: State)
    requires Reachable(Step, start, st) && Simple(r) && st.wizard.session == Some(Picking(r))
    ensures Reachable(Step, start, t) && Walked(st, t, [W.Done]) && t.wizard.session == Some(Paying(r))
  {
    hide Step;
    var i, l := |st.wizard.tasks|, st.wizard.ledger;
    var loading := W.Fresh(W.LoadingTokens, r.country).(product := Some(r.product), package := Some(r.package),
                                                        previous := Some(Picking(r)));
    var a := W.Fine(r.product, [], [r.token]);
    t := OpensTokens(start, st, r);
    t := Acts(start, t, i, a, W.Go(W.TokensReserving(r.product, r.package, r.country, map[], Picking(r)), l));
    t := Acts(start, t, i, a,
              W.Put(Some(loading), W.TokensLoading(r.product, r.package, r.country, map[], Picking(r)), l));
    t := Acts(start, t, i, a, W.Put(Some(Paying(r)), W.Done, l));
  }

  lemma PicksToken(start: State, st: State, r: W.Review) returns (t: State)
    requires Reachable(Step, start, st) && Simple(r) && st.wizard.session == Some(Paying(r))
    ensures Reachable(Step, start, t) && Walked(st, t, [W.Done])
    ensures t.wizard.session == Some(Paying(r).(stage := W.Reviewing, token := Some(r.token)))
  {
    hide Step;
    var i, l := |st.wizard.tasks|, st.wizard.ledger;
    var review := Paying(r).(stage := W.Reviewing, token := Some(r.token));
    t := Walks(start, st, W.Receive(W.FIRST));
    t := Acts(start, t, i, SMOOTH, W.Go(W.Handling(W.SelectToken, W.FIRST), l));
    t := Acts(start, t, i, SMOOTH, W.Put(Some(review), W.Done, l.(reviewed := l.reviewed + {W.ReviewOf(review)})));
  }

  lemma RequestsApproval(start: State, st: State, r: W.Review) returns (t: State)
    requires Reachable(Step, start, st) && Simple(r)
    requires st.wizard.session == Some(Paying(r).(stage := W.Reviewing, token := Some(r.token)))
    ensures Reachable(Step, start, t) && Walked(st, t, [W.PurchaseReserving(W.OrderOf(r))])
  {
    hide Step;
    var i, l := |st.wizard.tasks|, st.wizard.ledger;
    t := Walks(start, st, W.Receive(W.Message(W.RequestApproval, "Request approval", None)));
    t := Acts(start, t, i, SMOOTH,
              W.Go(W.PurchaseReserving(W.OrderOf(r)), l.(accepted := l.accepted + {r})));
  }

  /** Four messages, one after the other, from any state: the order is accepted. */
  lemma Orders(start: State, st: State, r: W.Review) returns (t: State)
    requires Reachable(Step, start, st) && Simple(r)
    ensures Reachable(Step, start, t)
    ensures Walked(st, t, [W.Done, W.Done, W.Done, W.PurchaseReserving(W.OrderOf(r))])
  {
    hide Step;
    t := PicksProduct(start, st, r);
    t := PicksPackage(start, t, r);
    t := PicksToken(start, t, r);
    t := RequestsApproval(start, t, r);
  }

  lemma ReachableIsLinked(buyer: T.User, st: State)
    requires Reachable(Step, Start(buyer), st)
    ensures Linked(st)
  {
    var events: seq<Event> :| Fold(Step, Start(buyer), events) == st;
    RunIsLinked(Start(buyer), events);
  }

  /** Task i went on alone, to `next`. */
  predicate WentOn(st: State, t: State, i: nat, next: W.Task) {
    && t.buyer == st.buyer && t.slots == st.slots && |t.system.operations| == |st.system.operations|
    && (forall k :: 0 <= k < |st.system.operations| && R.Holds(st.system.operations[k]) ==>
        R.Holds(t.system.operations[k]))
    && i < |st.wizard.tasks| && t.wizard.tasks == st.wizard.tasks[i := next]
  }

  lemma StoringGoesOn(st: State, i: nat)
    requires i < |st.wizard.tasks| && st.wizard.tasks[i].PurchaseStoring?
    ensures var t := Step(st, Moves(i, SMOOTH));
            && t.buyer == st.buyer && t.system == st.system && t.slots == st.slots
            && t.wizard.calls == st.wizard.calls
            && t.wizard.tasks == st.wizard.tasks[i := W.PurchaseScheduling(st.wizard.tasks[i].order,
                                                                           st.wizard.tasks[i].back)]
  {
  }

  lemma SchedulingGoesOn(st: State, i: nat)
    requires HasSlot(st, i) && st.wizard.tasks[i].PurchaseScheduling? && R.At(st.system, st.slots[i], R.Reserved)
    ensures var t := Step(st, Moves(i, SMOOTH));
            t.wizard.calls == st.wizard.calls && WentOn(st, t, i, W.CheckingEmail(st.wizard.tasks[i].order, true))
  {
  }

  lemma CheckingGoesOn(st: State, i: nat)
    requires i < |st.wizard.tasks| && st.wizard.tasks[i].CheckingEmail? && st.wizard.tasks[i].tracked
    ensures var t := Step(st, Moves(i, SMOOTH));
            && t.buyer == st.buyer && t.system == st.system && t.slots == st.slots
            && t.wizard.calls == st.wizard.calls
            && t.wizard.tasks == st.wizard.tasks[i := W.Calling(st.wizard.tasks[i].order, true)]
  {
  }

  lemma CallingGoesOn(st: State, i: nat)
    requires i < |st.wizard.tasks| && st.wizard.tasks[i].Calling? && st.wizard.tasks[i].tracked
    ensures var t := Step(st, Moves(i, SMOOTH));
            && t.buyer == st.buyer && t.system == st.system && t.slots == st.slots
            && |t.wizard.calls| == |st.wizard.calls| + 1
            && t.wizard.tasks == st.wizard.tasks[i := W.Succeeded(true)]
  {
  }

  lemma GrantedMoves(st: State, i: nat, a: W.Answer)
    requires i < |st.wizard.tasks| && st.wizard.tasks[i].PurchaseReserving? && Grants(st)
    ensures var t := Step(st, Moves(i, a));
            && t.buyer == st.buyer && |t.wizard.tasks| == |st.wizard.tasks| && t.wizard.calls == st.wizard.calls
            && t.wizard.tasks[i].PurchaseStoring?
            && forall j :: 0 <= j < |st.wizard.tasks| && j != i ==> t.wizard.tasks[j] == st.wizard.tasks[j]
  {
    ReservingMoves(st, i, a);
  }

  /** A purchase that got its slot calls the gateway, and keeps its slot until its worker ends. */
  lemma Calls(start: State, st: State, i: nat) returns (t: State)
    requires Reachable(Step, start, st) && HasSlot(st, i) && st.wizard.tasks[i].PurchaseStoring?
    ensures Reachable(Step, start, t) && |t.wizard.calls| == |st.wizard.calls| + 1
    ensures WentOn(st, t, i, W.Succeeded(true))
  {
    hide Step;
    StoringGoesOn(st, i);
    var stored := Follows(Step, start, st, Moves(i, SMOOTH));
    SchedulingGoesOn(stored, i);
    var scheduled := Follows(Step, start, stored, Moves(i, SMOOTH));
    CheckingGoesOn(scheduled, i);
    var checked := Follows(Step, start, scheduled, Moves(i, SMOOTH));
    CallingGoesOn(checked, i);
    t := Follows(Step, start, checked, Moves(i, SMOOTH));
  }

  /** A granted order calls the gateway; what else holds a slot keeps it. */
  lemma Buys(buyer: T.User, st: State, i: nat) returns (t: State)
    requires Reachable(Step, Start(buyer), st) && st.buyer == buyer && Grants(st)
    requires i < |st.wizard.tasks| && st.wizard.tasks[i].PurchaseReserving?
    ensures Reachable(Step, Start(buyer), t) && t.buyer == buyer && UnderWay(t, i)
    ensures |t.wizard.calls| == |st.wizard.calls| + 1 && |t.wizard.tasks| == |st.wizard.tasks|
    ensures forall j :: j != i && UnderWay(st, j) && IsPurchase(st, st.system.operations[st.slots[j]]) ==>
            UnderWay(t, j)
  {
    hide Step, Grants, Linked;
    GrantedSlot(st, i, SMOOTH);
    GrantedMoves(st, i, SMOOTH);
    var granted := Follows(Step, Start(buyer), st, Moves(i, SMOOTH));
    ReachableIsLinked(buyer, granted);
    LinkedHasSlot(granted, i);
    t := Calls(Start(buyer), granted, i);
  }

  lemma LinkedHasSlot(st: State, i: nat)
    requires Linked(st) && i in st.slots
    ensures HasSlot(st, i)
  {
  }

  /** From start-up, for any such order: accepted, called, navigated away from and accepted again, it has two
      purchases under way, both of which have called. */
  lemma TwoAtOnce(buyer: T.User, r: W.Review) returns (st: State)
    requires Simple(r)
    ensures Reachable(Step, Start(buyer), st) && UnderWay(st, 3) && UnderWay(st, 7) && |st.wizard.calls| == 2
  {
    hide Step, Grants, Linked;
    StartIsReachable(Step, Start(buyer));
    var first := Orders(Start(buyer), Start(buyer), r);
    FirstGrants(first);
    first := Buys(buyer, first, 3);
    ReachableIsLinked(buyer, first);
    NavigationLeaves(first, 3);
    var left := Follows(Step, Start(buyer), first, Others(R.Navigate(buyer)));
    var second := Orders(Start(buyer), left, r);
    IdleGrants(second);
    st := Buys(buyer, second, 7);
  }

  lemma FirstGrants(st: State)
    requires st.system == R.INITIAL
    ensures Grants(st)
  {
    AskedIs(st);
  }
}

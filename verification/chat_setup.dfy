/** The AI-budget setup of one user: a setup object walks from model to budget to review to approval while
    it may be cancelled, replaced or expire, and one worker at a time talks to the gateway. */
module ChatSetups {
  import opened Machines
  import opened Options

  const TTL := 900

  const AMOUNTS := [5_000_000, 10_000_000, 20_000_000]

  datatype Phase = ChoosingModel | ChoosingBudget | Reviewing | Approving

  /** `cap` is 0 until a budget is chosen. History: the question as it was saved, the cap last shown on the
      review screen, the cap on the screen when approval was requested, whether the setup was cancelled,
      replaced or expired, whether an approval came back, and whether its question was taken for sending. */
  datatype Setup = Setup(expires: int, prompt: string, phase: Phase, cap: int,
                         saved: string, shown: int, accepted: int, dropped: bool, approved: bool, taken: bool)

  /** What the user's chat slot is used for: one piece of work at a time, as proved for the chat guard. */
  datatype Work =
    | Idle
    | Talking
    | Checking(setup: nat)
    | Calling(setup: nat)
    | Deciding(setup: nat, approved: bool)
    | Submitting(setup: nat, prompt: string)

  datatype Request = Request(setup: nat, cap: int, shown: int, accepted: int)

  datatype Submission = Submission(setup: nat, prompt: string)

  datatype State = State(now: int, setups: seq<Setup>, current: Option<nat>, picker: bool, work: Work,
                         requests: seq<Request>, submissions: seq<Submission>)

  const INITIAL := State(0, [], None, false, Idle, [], [])

  datatype Button = UseModel | Amount(choice: nat) | ChangeBudget | RequestApproval | BackButton | OtherText

  /** Handlers run one at a time; the worker's steps come in between. */
  datatype Event =
    | Tick(seconds: nat)
    | Open(prompt: string)                       // a new setup replaces any other
    | Cancel                                     // /cancel, another command, eviction
    | OpenPicker                                 // /model
    | PickModel(saved: bool)                     // a tap on the model picker
    | NameModel                                  // /model with a name only one model matches
    | Tap(button: Button, granted: bool)         // any other message; `granted`: a slot and a generation are free
    | StartTalking
    | StopTalking
    | WorkerStep(current: bool, approved: bool)  // `current`: the worker's generation is

  function Changed(st: State, i: nat, f: Setup): State
    requires i < |st.setups|
  {
    st.(setups := st.setups[i := f])
  }

  /** The current setup leaves the table for good. */
  function Dropped(st: State): State {
    var cleared := st.(current := None, picker := false);
    if st.current.Some? && st.current.value < |st.setups| then
      Changed(cleared, st.current.value, st.setups[st.current.value].(dropped := true))
    else cleared
  }

  predicate Expired(st: State) {
    st.current.Some? && st.current.value < |st.setups| && st.setups[st.current.value].expires <= st.now
  }

  /** A lookup first discards an expired setup. */
  function Purged(st: State): State {
    if Expired(st) then Dropped(st) else st
  }

  predicate IsLive(st: State, i: nat) {
    st.current == Some(i) && i < |st.setups|
  }

  function ShowBudget(st: State): State {
    var p := Purged(st);
    if p.current.Some? && IsLive(p, p.current.value)
    then Changed(p, p.current.value, p.setups[p.current.value].(phase := ChoosingBudget))
    else p
  }

  function TapSetup(st: State, i: nat, button: Button, granted: bool): State
    requires IsLive(st, i)
  {
    var f := st.setups[i];
    match button
    case BackButton => Dropped(st)
    case UseModel => if f.phase.ChoosingModel? then Changed(st, i, f.(phase := ChoosingBudget)) else st
    case Amount(c) =>
      if f.phase.ChoosingBudget? && c < |AMOUNTS|
      then Changed(st, i, f.(phase := Reviewing, cap := AMOUNTS[c], shown := AMOUNTS[c])) else st
    case ChangeBudget => if f.phase.Reviewing? then Changed(st, i, f.(phase := ChoosingBudget)) else st
    case RequestApproval =>
      if !f.phase.Reviewing? then st
      else
        var asked := Changed(st, i, f.(phase := Approving, accepted := f.shown));
        if st.work.Idle? && granted then asked.(work := Checking(i)) else asked
    case OtherText => st
  }

  function WorkStep(st: State, current: bool, approved: bool): State {
    match st.work
    case Checking(i) =>
      var p := Purged(st);
      p.(work := if IsLive(p, i) && current then Calling(i) else Idle)
    case Calling(i) =>
      if i >= |st.setups| then st
      else
        var f := st.setups[i];
        Changed(st, i, f.(approved := f.approved || approved))
          .(work := Deciding(i, approved), requests := st.requests + [Request(i, f.cap, f.shown, f.accepted)])
    case Deciding(i, false) =>
      var p := Purged(st);
      (if IsLive(p, i) then Dropped(p) else p).(work := Idle)
    case Deciding(i, true) =>
      var p := Purged(st);
      if IsLive(p, i) && current then
        var f := p.setups[i];
        Changed(p, i, f.(prompt := "", taken := true))
          .(current := None, picker := false, work := Submitting(i, f.prompt))
      else p.(work := Idle)
    case Submitting(i, prompt) =>
      st.(work := Idle,
          submissions := if prompt != "" then st.submissions + [Submission(i, prompt)] else st.submissions)
    case _ => st
  }

  function Step(st: State, e: Event): State {
    match e
    case Tick(seconds) => st.(now := st.now + seconds)
    case Open(prompt) =>
      var d := Dropped(st);
      d.(setups := d.setups + [Setup(st.now + TTL, prompt, ChoosingModel, 0, prompt, 0, 0, false, false, false)],
         current := Some(|d.setups|))
    case Cancel => Dropped(st)
    case OpenPicker => if st.work.Idle? then st.(picker := true) else st
    case PickModel(saved) =>
      if !st.picker then st else if saved then ShowBudget(st.(picker := false)) else st.(picker := false)
    case NameModel => if st.work.Idle? then ShowBudget(st) else st
    case Tap(button, granted) =>
      if st.picker && button.BackButton? then st.(picker := false)
      else
        var p := Purged(st.(picker := false));
        if p.current.Some? && IsLive(p, p.current.value) then TapSetup(p, p.current.value, button, granted) else p
    case StartTalking => if st.work.Idle? then st.(work := Talking) else st
    case StopTalking => if st.work.Talking? then st.(work := Idle) else st
    case WorkerStep(current, approved) => WorkStep(st, current, approved)
  }

  function Run(st: State, events: seq<Event>): State {
    Fold(Step, st, events)
  }

  // ----- What every step keeps -----

  predicate Offered(cap: int) {
    cap in AMOUNTS
  }

  /** The work is a setup's approval, not yet finished. */
  predicate About(work: Work, i: nat) {
    work == Checking(i) || work == Calling(i) || (work.Deciding? && work.setup == i)
  }

  ghost predicate SetupSound(f: Setup) {
    && (f.phase.Reviewing? ==> f.cap == f.shown && Offered(f.cap))
    && (f.taken ==> f.approved && !f.dropped && f.prompt == "")
    && (!f.taken ==> f.prompt == f.saved)
  }

  /** Until its request is sent the worker's setup stays as it was accepted. */
  ghost predicate Awaits(st: State, i: nat) {
    && i < |st.setups|
    && var f := st.setups[i];
    && f.phase.Approving? && f.cap == f.shown == f.accepted && Offered(f.cap) && !f.taken
    && (IsLive(st, i) ==> !st.picker)
  }

  /** Its request is out and its answer not yet acted on. */
  ghost predicate Outstanding(st: State, i: nat) {
    i < |st.setups| && st.setups[i].phase.Approving? && !st.setups[i].taken && (IsLive(st, i) ==> !st.picker)
  }

  ghost predicate WorkSound(st: State) {
    match st.work
    case Checking(i) => Awaits(st, i)
    case Calling(i) => Awaits(st, i)
    case Deciding(i, approved) => Outstanding(st, i) && (approved ==> st.setups[i].approved)
    case Submitting(i, prompt) => i < |st.setups| && st.setups[i].taken && prompt == st.setups[i].saved
    case _ => true
  }

  ghost predicate Sent(st: State, i: nat) {
    exists k :: 0 <= k < |st.submissions| && st.submissions[k].setup == i
  }

  /** A taken question is the one being submitted or, unless there was none, has been submitted. */
  ghost predicate TakenIsSent(st: State, i: nat)
    requires i < |st.setups|
  {
    st.setups[i].taken ==> (st.work.Submitting? && st.work.setup == i) || st.setups[i].saved == "" || Sent(st, i)
  }

  ghost predicate Submitted(st: State) {
    && (forall k :: 0 <= k < |st.submissions| ==>
          var s := st.submissions[k];
          s.setup < |st.setups| && st.setups[s.setup].taken && s.prompt == st.setups[s.setup].saved)
    && (forall j, k :: 0 <= j < k < |st.submissions| ==> st.submissions[j].setup != st.submissions[k].setup)
    && (st.work.Submitting? ==> forall k :: 0 <= k < |st.submissions| ==> st.submissions[k].setup != st.work.setup)
    && (forall i :: 0 <= i < |st.setups| ==> TakenIsSent(st, i))
  }

  ghost predicate RequestsSound(st: State) {
    forall k :: 0 <= k < |st.requests| ==>
      var r := st.requests[k]; r.cap == r.shown == r.accepted && Offered(r.cap)
  }

  ghost predicate CurrentSound(st: State) {
    st.current.Some? ==>
      && st.current.value < |st.setups|
      && !st.setups[st.current.value].dropped && !st.setups[st.current.value].taken
  }

  ghost predicate Sound(st: State) {
    && CurrentSound(st) && WorkSound(st) && Submitted(st) && RequestsSound(st)
    && (forall i :: 0 <= i < |st.setups| ==> SetupSound(st.setups[i]))
  }

  /** Changing one setup that has not been taken, and nothing the history speaks of. */
  lemma ChangedIsSound(st: State, t: State, i: nat)
    requires Sound(st) && i < |st.setups| && !st.setups[i].taken
    requires |t.setups| == |st.setups| && t.setups == st.setups[i := t.setups[i]]
    requires t.requests == st.requests && t.submissions == st.submissions && t.work == st.work
    requires SetupSound(t.setups[i]) && !t.setups[i].taken && t.setups[i].saved == st.setups[i].saved
    requires st.setups[i].approved ==> t.setups[i].approved
    requires CurrentSound(t) && WorkSound(t)
    ensures Sound(t)
  {
    forall j | 0 <= j < |t.setups|
      ensures TakenIsSent(t, j)
    {
      assert TakenIsSent(st, j);
      if Sent(st, j) { assert Sent(t, j); }
    }
  }

  lemma DroppedIsSound(st: State)
    requires Sound(st)
    ensures Sound(Dropped(st))
  {
    if st.current.Some? { ChangedIsSound(st, Dropped(st), st.current.value); }
    else { SameSetupsSound(st, Dropped(st)); }
  }

  lemma SameSetupsSound(st: State, t: State)
    requires Sound(st) && t.setups == st.setups && t.requests == st.requests && t.submissions == st.submissions
    requires t.work == st.work || (!st.work.Submitting? && !t.work.Submitting?)
    requires CurrentSound(t) && WorkSound(t)
    ensures Sound(t)
  {
    forall j | 0 <= j < |t.setups|
      ensures TakenIsSent(t, j)
    {
      assert TakenIsSent(st, j);
      if Sent(st, j) { assert Sent(t, j); }
    }
  }

  lemma PurgedIsSound(st: State)
    requires Sound(st)
    ensures Sound(Purged(st)) && Purged(st).work == st.work
  {
    if Expired(st) { DroppedIsSound(st); }
  }

  lemma ShowBudgetIsSound(st: State)
    requires Sound(st)
    requires st.current.Some? ==> !About(st.work, st.current.value)
    ensures Sound(ShowBudget(st))
  {
    PurgedIsSound(st);
    var p := Purged(st);
    if p.current.Some? { ChangedIsSound(p, ShowBudget(st), p.current.value); }
  }

  lemma TapIsSound(st: State, i: nat, button: Button, granted: bool)
    requires Sound(st) && IsLive(st, i) && !st.picker
    ensures Sound(TapSetup(st, i, button, granted))
  {
    var t := TapSetup(st, i, button, granted);
    match button
    case BackButton => DroppedIsSound(st);
    case RequestApproval =>
      if st.setups[i].phase.Reviewing? {
        var asked := t.(work := st.work);
        ChangedIsSound(st, asked, i);
        SameSetupsSound(asked, t);
      }
    case _ => if t != st { ChangedIsSound(st, t, i); }
  }

  lemma CallIsSound(st: State, current: bool, approved: bool)
    requires Sound(st) && st.work.Calling?
    ensures Sound(WorkStep(st, current, approved))
  {
    var i := st.work.setup;
    var t := WorkStep(st, current, approved);
    var middle := st.(setups := t.setups);
    ChangedIsSound(st, middle, i);
    SameSetupsSound(middle, t.(requests := st.requests));
    forall j | 0 <= j < |t.setups|
      ensures TakenIsSent(t, j)
    {
      assert TakenIsSent(t.(requests := st.requests), j);
      if Sent(t.(requests := st.requests), j) { assert Sent(t, j); }
    }
  }

  lemma TakeIsSound(p: State, i: nat)
    requires Sound(p) && IsLive(p, i) && p.work == Deciding(i, true)
    ensures var f := p.setups[i];
            Sound(Changed(p, i, f.(prompt := "", taken := true))
                    .(current := None, picker := false, work := Submitting(i, f.prompt)))
  {
    var f := p.setups[i];
    var t := Changed(p, i, f.(prompt := "", taken := true))
               .(current := None, picker := false, work := Submitting(i, f.prompt));
    forall j | 0 <= j < |t.setups|
      ensures TakenIsSent(t, j)
    {
      assert TakenIsSent(p, j);
      if Sent(p, j) { assert Sent(t, j); }
    }
    forall k | 0 <= k < |t.submissions|
      ensures t.submissions[k].setup != i
    {
      assert p.setups[p.submissions[k].setup].taken;
    }
  }

  lemma SubmitIsSound(st: State, current: bool, approved: bool)
    requires Sound(st) && st.work.Submitting?
    ensures Sound(WorkStep(st, current, approved))
  {
    var t := WorkStep(st, current, approved);
    forall j | 0 <= j < |t.setups|
      ensures TakenIsSent(t, j)
    {
      assert TakenIsSent(st, j);
      if j == st.work.setup && st.work.prompt != "" {
        assert t.submissions[|st.submissions|].setup == j;
      } else if Sent(st, j) {
        var k :| 0 <= k < |st.submissions| && st.submissions[k].setup == j;
        assert t.submissions[k].setup == j;
      }
    }
  }

  lemma WorkIsSound(st: State, current: bool, approved: bool)
    requires Sound(st)
    ensures Sound(WorkStep(st, current, approved))
  {
    PurgedIsSound(st);
    var p := Purged(st);
    match st.work
    case Checking(i) => SameSetupsSound(p, WorkStep(st, current, approved));
    case Calling(i) => CallIsSound(st, current, approved);
    case Deciding(i, false) =>
      if IsLive(p, i) { DroppedIsSound(p); }
      SameSetupsSound(if IsLive(p, i) then Dropped(p) else p, WorkStep(st, current, approved));
    case Deciding(i, true) =>
      if IsLive(p, i) && current { TakeIsSound(p, i); } else { SameSetupsSound(p, WorkStep(st, current, approved)); }
    case Submitting(i, prompt) => SubmitIsSound(st, current, approved);
    case _ =>
  }

  lemma OpenIsSound(st: State, prompt: string)
    requires Sound(st)
    ensures Sound(Step(st, Open(prompt)))
  {
    DroppedIsSound(st);
    var d := Dropped(st);
    var t := Step(st, Open(prompt));
    assert t.setups[..|d.setups|] == d.setups;
    forall j | 0 <= j < |t.setups|
      ensures TakenIsSent(t, j)
    {
      if j < |d.setups| {
        assert TakenIsSent(d, j);
        if Sent(d, j) { assert Sent(t, j); }
      }
    }
  }

  lemma StepIsSound(st: State, e: Event)
    requires Sound(st)
    ensures Sound(Step(st, e))
  {
    var closed := st.(picker := false);
    SameSetupsSound(st, closed);
    match e
    case Open(prompt) => OpenIsSound(st, prompt);
    case Cancel => DroppedIsSound(st);
    case PickModel(saved) => if st.picker && saved { ShowBudgetIsSound(closed); }
    case NameModel => if st.work.Idle? { ShowBudgetIsSound(st); }
    case Tap(button, granted) =>
      PurgedIsSound(closed);
      var p := Purged(closed);
      if !(st.picker && button.BackButton?) && p.current.Some? { TapIsSound(p, p.current.value, button, granted); }
    case WorkerStep(current, approved) => WorkIsSound(st, current, approved);
    case _ => SameSetupsSound(st, Step(st, e));
  }

  lemma {:induction false} RunIsSound(st: State, events: seq<Event>)
    requires Sound(st)
    ensures Sound(Run(st, events))
    decreases |events|
  {
    if events != [] {
      StepIsSound(st, events[0]);
      RunIsSound(Step(st, events[0]), events[1..]);
    }
  }

  /** Over every run: a budget approval asks for the cap last shown on that setup's review screen, which is
      the one on the screen when the user asked, and one of the three offered. */
  lemma RequestsCarryTheReviewedCap(events: seq<Event>, k: nat)
    requires k < |Run(INITIAL, events).requests|
    ensures var r := Run(INITIAL, events).requests[k];
            r.cap == r.shown == r.accepted && r.cap in {5_000_000, 10_000_000, 20_000_000}
  {
    RunIsSound(INITIAL, events);
    var r := Run(INITIAL, events).requests[k];
    assert r.cap in AMOUNTS;
  }

  /** Over every run: a saved question is sent at most once, as it was saved, only after an approval of its
      setup, never when the setup was cancelled, replaced or expired; and a question taken for sending is sent. */
  lemma QuestionsAreSentOnce(events: seq<Event>)
    ensures var st := Run(INITIAL, events);
            && (forall k :: 0 <= k < |st.submissions| ==>
                  var s := st.submissions[k];
                  && s.setup < |st.setups| && s.prompt == st.setups[s.setup].saved
                  && st.setups[s.setup].approved && !st.setups[s.setup].dropped
                  && forall j :: 0 <= j < |st.submissions| && j != k ==> st.submissions[j].setup != s.setup)
            && (st.work.Idle? ==> forall i :: 0 <= i < |st.setups| && st.setups[i].taken && st.setups[i].saved != "" ==>
                Sent(st, i))
  {
    RunIsSound(INITIAL, events);
    var st := Run(INITIAL, events);
    forall i | st.work.Idle? && 0 <= i < |st.setups| && st.setups[i].taken && st.setups[i].saved != ""
      ensures Sent(st, i)
    {
      assert TakenIsSent(st, i);
    }
    forall k | 0 <= k < |st.submissions|
      ensures SetupSound(st.setups[st.submissions[k].setup])
    {
    }
  }

  // ----- A refused start -----

  /** The setup waits for an approval that nothing is going to ask for. */
  ghost predicate Stuck(st: State, i: nat) {
    i < |st.setups| && st.setups[i].phase.Approving? && !About(st.work, i)
  }

  /** The phase is changed before the slot is asked for. The request is under way iff the slot was free and
      granted; otherwise the setup is stuck. */
  lemma RequestStartsIff(st: State, i: nat, granted: bool)
    requires Sound(st) && IsLive(st, i) && !Expired(st) && st.setups[i].phase.Reviewing?
    ensures var t := Step(st, Tap(RequestApproval, granted));
            && (t.work == Checking(i) <==> st.work.Idle? && granted)
            && (Stuck(t, i) <==> !(st.work.Idle? && granted))
            && t.requests == st.requests && IsLive(t, i) && !Expired(t)
  {
    assert SetupSound(st.setups[i]);
    assert !About(st.work, i);
  }

  /** A tap or a command that takes a setup's phase back to the budget. */
  predicate PicksModel(e: Event) {
    e.NameModel? || (e.PickModel? && e.saved)
  }

  /** The requests for one setup's approval. */
  function RequestsFor(requests: seq<Request>, i: nat): seq<Request> {
    if requests == [] then []
    else
      var n := |requests| - 1;
      var before := RequestsFor(requests[..n], i);
      if requests[n].setup == i then before + [requests[n]] else before
  }

  lemma OneMoreRequest(requests: seq<Request>, r: Request, i: nat)
    ensures RequestsFor(requests + [r], i)
         == if r.setup == i then RequestsFor(requests, i) + [r] else RequestsFor(requests, i)
  {
    assert (requests + [r])[..|requests|] == requests;
  }

  lemma PurgedStaysStuck(st: State, i: nat)
    requires Stuck(st, i)
    ensures Stuck(Purged(st), i)
  {
  }

  lemma WorkStaysStuck(st: State, i: nat, current: bool, approved: bool)
    requires Stuck(st, i)
    ensures var t := WorkStep(st, current, approved);
            Stuck(t, i) && RequestsFor(t.requests, i) == RequestsFor(st.requests, i)
  {
    hide RequestsFor;
    if st.work.Calling? && st.work.setup < |st.setups| {
      var f := st.setups[st.work.setup];
      OneMoreRequest(st.requests, Request(st.work.setup, f.cap, f.shown, f.accepted), i);
    } else {
      PurgedStaysStuck(st, i);
    }
  }

  lemma TapStaysStuck(st: State, i: nat, button: Button, granted: bool)
    requires Stuck(st, i)
    ensures var t := Step(st, Tap(button, granted)); Stuck(t, i) && t.requests == st.requests
  {
    var p := Purged(st.(picker := false));
    assert Stuck(p, i);
  }

  lemma StepStaysStuck(st: State, i: nat, e: Event)
    requires Stuck(st, i) && !PicksModel(e)
    ensures Stuck(Step(st, e), i) && RequestsFor(Step(st, e).requests, i) == RequestsFor(st.requests, i)
  {
    match e
    case WorkerStep(current, approved) => WorkStaysStuck(st, i, current, approved);
    case Tap(button, granted) => TapStaysStuck(st, i, button, granted);
    case _ =>
  }

  /** Whatever happens to a stuck setup, time passing, other work ending and starting, every button, being left,
      replaced or expired: its approval is not asked for unless a model is chosen again. */
  lemma {:induction false} StuckUntilModelChoice(st: State, i: nat, events: seq<Event>)
    requires Stuck(st, i) && forall k :: 0 <= k < |events| ==> !PicksModel(events[k])
    ensures Stuck(Run(st, events), i) && RequestsFor(Run(st, events).requests, i) == RequestsFor(st.requests, i)
    decreases |events|
  {
    if events != [] {
      StepStaysStuck(st, i, events[0]);
      StuckUntilModelChoice(Step(st, events[0]), i, events[1..]);
    }
  }

  /** A live setup that has not expired, nothing else in the way. */
  predicate Free(st: State, i: nat) {
    st.work.Idle? && IsLive(st, i) && !Expired(st)
  }

  /** The worker is about to ask for another setup's approval: it asks and is told no. */
  lemma CallSettles(st: State, i: nat) returns (t: State)
    requires Sound(st) && Stuck(st, i) && IsLive(st, i) && !Expired(st) && st.work.Calling?
    ensures Reachable(Step, st, t) && Free(t, i) && RequestsFor(t.requests, i) == RequestsFor(st.requests, i)
  {
    hide RequestsFor;
    var f := st.setups[st.work.setup];
    StartIsReachable(Step, st);
    t := Follows(Step, st, st, WorkerStep(false, false));
    OneMoreRequest(st.requests, Request(st.work.setup, f.cap, f.shown, f.accepted), i);
    assert IsLive(t, i) && !Expired(t) && t.work == Deciding(st.work.setup, false);
    t := Follows(Step, st, t, WorkerStep(false, false));
  }

  /** The work of another setup, or a conversation, comes to its end. */
  lemma WorkSettles(st: State, i: nat) returns (t: State)
    requires Sound(st) && Stuck(st, i) && IsLive(st, i) && !Expired(st)
    ensures Reachable(Step, st, t) && Free(t, i) && RequestsFor(t.requests, i) == RequestsFor(st.requests, i)
  {
    hide RequestsFor;
    StartIsReachable(Step, st);
    if st.work.Calling? {
      t := CallSettles(st, i);
    } else if st.work.Talking? {
      t := Follows(Step, st, st, StopTalking);
    } else if st.work.Idle? {
      t := st;
    } else {
      t := Follows(Step, st, st, WorkerStep(false, false));
    }
  }

  /** An amount chosen. */
  lemma Picks(start: State, st: State, i: nat, choice: nat) returns (t: State)
    requires Reachable(Step, start, st) && IsLive(st, i) && !Expired(st) && choice < |AMOUNTS|
    requires st.setups[i].phase.ChoosingBudget?
    ensures Reachable(Step, start, t)
    ensures t == Changed(st, i, st.setups[i].(phase := Reviewing, cap := AMOUNTS[choice], shown := AMOUNTS[choice]))
                 .(picker := false)
  {
    t := Follows(Step, start, st, Tap(Amount(choice), true));
  }

  /** A model chosen, then an amount. */
  lemma Reviews(start: State, st: State, i: nat, choice: nat) returns (t: State)
    requires Reachable(Step, start, st) && IsLive(st, i) && !Expired(st) && choice < |AMOUNTS|
    requires st.setups[i].phase.ChoosingModel?
    ensures Reachable(Step, start, t)
    ensures t == Changed(st, i, st.setups[i].(phase := Reviewing, cap := AMOUNTS[choice], shown := AMOUNTS[choice]))
                 .(picker := false)
  {
    t := Follows(Step, start, st, Tap(UseModel, true));
    t := Picks(start, t, i, choice);
  }

  /** The review accepted while the slot is free. */
  lemma Requests(start: State, st: State, i: nat) returns (t: State)
    requires Reachable(Step, start, st) && Free(st, i) && st.setups[i].phase.Reviewing? && !st.picker
    ensures Reachable(Step, start, t)
    ensures var f := st.setups[i];
            t == Changed(st, i, f.(phase := Approving, accepted := f.shown)).(work := Checking(i))
  {
    t := Follows(Step, start, st, Tap(RequestApproval, true));
  }

  /** A model named again, a budget chosen and its approval asked for. */
  lemma Frees(st: State, i: nat, choice: nat) returns (t: State)
    requires Free(st, i) && choice < |AMOUNTS|
    ensures Reachable(Step, st, t)
    ensures t.requests == st.requests + [Request(i, AMOUNTS[choice], AMOUNTS[choice], AMOUNTS[choice])]
  {
    StartIsReachable(Step, st);
    t := Follows(Step, st, st, NameModel);
    t := Picks(st, t, i, choice);
    t := Requests(st, t, i);
    t := Follows(Step, st, t, WorkerStep(true, false));
    t := Follows(Step, st, t, WorkerStep(true, false));
  }

  /** The exact way out: a stuck setup that is still there can have its approval asked for, and every run in which
      it is asked for chooses a model. */
  lemma StuckIsFreedByModelChoice(st: State, i: nat, choice: nat)
    requires Sound(st) && Stuck(st, i) && IsLive(st, i) && !Expired(st) && choice < |AMOUNTS|
    ensures exists events ::
              RequestsFor(Run(st, events).requests, i)
              == RequestsFor(st.requests, i) + [Request(i, AMOUNTS[choice], AMOUNTS[choice], AMOUNTS[choice])]
    ensures forall events :: RequestsFor(Run(st, events).requests, i) != RequestsFor(st.requests, i) ==>
              exists k :: 0 <= k < |events| && PicksModel(events[k])
  {
    var settled := WorkSettles(st, i);
    var freed := Frees(settled, i, choice);
    OneMoreRequest(settled.requests, Request(i, AMOUNTS[choice], AMOUNTS[choice], AMOUNTS[choice]), i);
    Onwards(Step, st, settled, freed);
    var events: seq<Event> :| Fold(Step, st, events) == freed;
    assert Run(st, events) == freed;
    forall events | forall k :: 0 <= k < |events| ==> !PicksModel(events[k])
      ensures RequestsFor(Run(st, events).requests, i) == RequestsFor(st.requests, i)
    {
      StuckUntilModelChoice(st, i, events);
    }
  }

  /** A run from start-up: a question opens the setup, the approval is tapped before that work has released the
      slot and is refused; the slot is freed, and the approval is asked for after /model. */
  lemma EscapeRun() returns (stuck: State, freed: State)
    ensures Reachable(Step, INITIAL, stuck) && Stuck(stuck, 0) && IsLive(stuck, 0) && stuck.requests == []
    ensures Reachable(Step, stuck, freed) && |freed.requests| == 1
  {
    StartIsReachable(Step, INITIAL);
    stuck := Follows(Step, INITIAL, INITIAL, StartTalking);
    stuck := Follows(Step, INITIAL, stuck, Open("why?"));
    stuck := Reviews(INITIAL, stuck, 0, 0);
    stuck := Follows(Step, INITIAL, stuck, Tap(RequestApproval, true));
    StartIsReachable(Step, stuck);
    var quiet := Follows(Step, stuck, stuck, StopTalking);
    freed := Frees(quiet, 0, 0);
    Onwards(Step, stuck, quiet, freed);
  }

  // ----- Any setup can be approved -----

  /** A setup walks to its approval request. */
  lemma AnySetupCanAsk(prompt: string, choice: nat) returns (st: State)
    requires choice < |AMOUNTS|
    ensures Reachable(Step, INITIAL, st) && st.work == Checking(0) && st.current == Some(0) && st.requests == []
            && st.submissions == []
    ensures st.now == 0 && |st.setups| == 1
    ensures st.setups[0] == Setup(TTL, prompt, Approving, AMOUNTS[choice], prompt, AMOUNTS[choice], AMOUNTS[choice],
                                  false, false, false)
  {
    StartIsReachable(Step, INITIAL);
    st := Follows(Step, INITIAL, INITIAL, Open(prompt));
    st := Reviews(INITIAL, st, 0, choice);
    st := Requests(INITIAL, st, 0);
  }

  /** The partner of the safety theorems: each offered cap can be asked for, and the saved question sent. */
  lemma AnySetupCanBeApproved(prompt: string, choice: nat) returns (st: State)
    requires choice < |AMOUNTS|
    ensures Reachable(Step, INITIAL, st) && |st.requests| == 1 && st.requests[0].cap == AMOUNTS[choice]
    ensures st.submissions == if prompt != "" then [Submission(0, prompt)] else []
  {
    st := AnySetupCanAsk(prompt, choice);
    st := Follows(Step, INITIAL, st, WorkerStep(true, true));
    st := Follows(Step, INITIAL, st, WorkerStep(true, true));
    st := Follows(Step, INITIAL, st, WorkerStep(true, true));
    st := Follows(Step, INITIAL, st, WorkerStep(true, true));
  }
}

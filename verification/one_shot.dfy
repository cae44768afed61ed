/** The one-time paid check: any number of invocations of the script, interleaved step by step and crashing
    anywhere, over the files of the original state directory and of the demo directory inside it. */
module OneShotPayments {
  import opened Machines
  import opened Options

  datatype Dir = Original | Demo

  /** result.json: what the payer answered. A missing transaction hash is None. */
  datatype Answer = Answer(ok: bool, status: int, transaction: Option<nat>)

  /** verification.json; `proved` is its proof's `verified`, `transaction` its proof's transaction hash. */
  datatype Verification = Verification(restartCachePassed: bool, proved: bool, transaction: nat)

  /** The files of one directory. attempt.json is created exclusively: it names the invocation that did. */
  datatype Files = Files(attempt: Option<nat>, plan: Option<int>, result: Option<Answer>,
                         verification: Option<Verification>)

  datatype Action = Prepare | Pay | Status

  datatype Phase =
    | Gate                                                  // --video-demo: look for the original attempt
    | GateResult
    | GateVerification(result: Answer)
    | GateReceipt(result: Answer, verification: Verification)
    | Opened                                                // the state directory is settled
    | StatusReceipt(result: Answer)
    | StatusVerification(result: Answer)
    | Recovering(result: Answer)
    | Unattempted                                           // no attempt.json was there
    | Running
    | Paying                                                // attempt.json is ours; the payer is called next
    | Saving(result: Answer)
    | Checking
    | Confirming(result: Answer)
    | Proving(verification: Verification)
    | Stopped

  /** `terms` are today's quoted terms. History: whether the original attempt existed when this invocation
      started, what its gate found of it, whether it is through its gate, and the original result it passed on. */
  datatype Invocation = Invocation(action: Action, dir: Dir, terms: int, phase: Phase, calls: nat, late: bool,
                                   found: Option<bool>, through: bool, passed: Option<Answer>)

  datatype Payment = Payment(dir: Dir, invocation: nat, terms: int, answer: Option<Answer>)

  /** `settled`: the transactions whose receipt proves the transfer. `prepared`: the plans ever written. */
  datatype State = State(original: Files, demo: Files, invocations: seq<Invocation>, settled: set<nat>,
                         prepared: set<(Dir, int)>, payments: seq<Payment>)

  const NO_FILES := Files(None, None, None, None)

  const INITIAL := State(NO_FILES, NO_FILES, [], {}, {}, [])

  /** `yes`: the client calls the payer, or the journal proves the cache reuse; `answer`: the payer's, None if it
      raised. */
  datatype Event =
    | Start(action: Action, dir: Dir, terms: int)
    | Settle(transaction: nat)
    | Crash(invocation: nat)
    | Proceed(invocation: nat, yes: bool, answer: Option<Answer>)

  function FilesOf(st: State, d: Dir): Files {
    if d.Original? then st.original else st.demo
  }

  function WithFiles(st: State, d: Dir, f: Files): State {
    if d.Original? then st.(original := f) else st.(demo := f)
  }

  function At(st: State, i: nat, phase: Phase): State
    requires i < |st.invocations|
  {
    st.(invocations := st.invocations[i := st.invocations[i].(phase := phase)])
  }

  predicate Settled(st: State, a: Answer) {
    a.transaction.Some? && a.transaction.value in st.settled
  }

  /** The checks on the original attempt's files before a demo may start. */
  predicate Reconciled(a: Answer, v: Verification) {
    a.ok && a.status == 200 && a.transaction.Some? && v.restartCachePassed && v.proved
        && v.transaction == a.transaction.value
  }

  function GateStep(st: State, i: nat): State
    requires i < |st.invocations|
  {
    var p := st.invocations[i];
    match p.phase
    case Gate =>
      var found := st.original.attempt.Some?;
      st.(invocations := st.invocations[i := p.(phase := if found then GateResult else Opened,
                                                found := Some(found), through := !found)])
    case GateResult => At(st, i, if st.original.result.Some? then GateVerification(st.original.result.value)
                          else Stopped)
    case GateVerification(r) =>
      At(st, i, if st.original.verification.Some? then GateReceipt(r, st.original.verification.value) else Stopped)
    case GateReceipt(r, v) =>
      if Reconciled(r, v) && Settled(st, r)
          then st.(invocations := st.invocations[i := p.(phase := Opened, through := true, passed := Some(r))])
      else At(st, i, Stopped)
    case _ => st
  }

  function StatusStep(st: State, i: nat, yes: bool): State
    requires i < |st.invocations|
  {
    var p := st.invocations[i];
    var f := FilesOf(st, p.dir);
    match p.phase
    case Opened => At(st, i, if f.result.Some? then StatusReceipt(f.result.value) else Stopped)
    case StatusReceipt(r) => At(st, i, if Settled(st, r) then StatusVerification(r) else Stopped)
    case StatusVerification(r) => At(st, i, if f.verification.Some? then Stopped else Recovering(r))
    case Recovering(r) =>
      if r.ok && r.status == 200 && r.transaction.Some? && yes
      then WithFiles(At(st, i, Stopped), p.dir,
                     f.(verification := Some(Verification(false, true, r.transaction.value))))
      else At(st, i, Stopped)
    case _ => st
  }

  function PayStep(st: State, i: nat, yes: bool, answer: Option<Answer>): State
    requires i < |st.invocations|
  {
    var p := st.invocations[i];
    var f := FilesOf(st, p.dir);
    match p.phase
    case Opened => At(st, i, if f.attempt.Some? then Stopped else Unattempted)
    case Unattempted =>
      if p.action.Prepare? then
        WithFiles(At(st, i, Stopped), p.dir, f.(plan := Some(p.terms))).(prepared := st.prepared + {(p.dir, p.terms)})
      else At(st, i, if f.plan == Some(p.terms) then Running else Stopped)
    case Running =>
      if yes then
        if f.attempt.Some? then st
        else WithFiles(st.(invocations := st.invocations[i := p.(phase := Paying, calls := p.calls + 1)]), p.dir,
                       f.(attempt := Some(i)))
      else At(st, i, if p.calls == 1 then Checking else Stopped)
    case Paying =>
      At(st, i, if answer.Some? then Saving(answer.value) else Running)
        .(payments := st.payments + [Payment(p.dir, i, p.terms, answer)])
    case Saving(r) => WithFiles(At(st, i, Running), p.dir, f.(result := Some(r)))
    case Checking => At(st, i, if f.result.Some? then Confirming(f.result.value) else Stopped)
    case Confirming(r) => At(st, i, if Settled(st, r) then Proving(Verification(true, true, r.transaction.value))
                             else Stopped)
    case Proving(v) => WithFiles(At(st, i, Stopped), p.dir, f.(verification := Some(v)))
    case _ => st
  }

  predicate AtGate(p: Phase) {
    p.Gate? || p.GateResult? || p.GateVerification? || p.GateReceipt?
  }

  function Step(st: State, e: Event): State {
    match e
    case Start(action, dir, terms) =>
      st.(invocations := st.invocations +
        [Invocation(action, dir, terms, if dir.Demo? then Gate else Opened, 0, st.original.attempt.Some?,
                    None, dir.Original?, None)])
    case Settle(t) => st.(settled := st.settled + {t})
    case Crash(i) => if i < |st.invocations| then At(st, i, Stopped) else st
    case Proceed(i, yes, answer) =>
      if i >= |st.invocations| then st
      else if AtGate(st.invocations[i].phase) then GateStep(st, i)
      else if st.invocations[i].action.Status? then StatusStep(st, i, yes)
      else PayStep(st, i, yes, answer)
  }

  function Run(st: State, events: seq<Event>): State {
    Fold(Step, st, events)
  }

  // ----- What every step keeps -----

  ghost predicate PaidIn(st: State, d: Dir) {
    exists k :: 0 <= k < |st.payments| && st.payments[k].dir == d
  }

  ghost predicate AnsweredIn(st: State, d: Dir, a: Answer) {
    exists k :: 0 <= k < |st.payments| && st.payments[k].dir == d && st.payments[k].answer == Some(a)
  }

  /** A demo is through its gate on a reconciled, settled original result iff the gate found the original attempt. */
  ghost predicate GateSound(st: State, p: Invocation) {
    && (p.dir.Original? ==> !AtGate(p.phase))
    && (p.late || p.found == Some(true) ==> st.original.attempt.Some?)
    && (p.late && p.found.Some? ==> p.found == Some(true))
    && (p.passed.Some? ==> var r := p.passed.value;
          r.ok && r.status == 200 && Settled(st, r) && st.original.result == Some(r))
    && (p.dir.Demo? && p.through ==> p.found.Some? && (p.passed.Some? <==> p.found == Some(true)))
    && (AtGate(p.phase) ==> !p.through && p.passed.None?)
    && (p.phase.GateResult? || p.phase.GateVerification? || p.phase.GateReceipt? ==> p.found == Some(true))
    && (!AtGate(p.phase) && !p.phase.Stopped? ==> p.through)
    && (p.phase.GateVerification? || p.phase.GateReceipt? ==> st.original.result == Some(p.phase.result))
  }

  ghost predicate PhaseSound(st: State, i: nat, p: Invocation) {
    var f := FilesOf(st, p.dir);
    && (p.calls > 0 ==> f.attempt == Some(i) && p.calls == 1 && p.action.Pay?)
    && (p.phase.Running? || p.phase.Paying? ==> p.action.Pay? && (p.dir, p.terms) in st.prepared)
    && (p.phase.Paying? ==> p.calls == 1 && !PaidIn(st, p.dir))
    && (p.phase.Saving? ==> p.calls == 1 && f.result.None? && AnsweredIn(st, p.dir, p.phase.result)
                            && p.action.Pay? && (p.dir, p.terms) in st.prepared)
    && (p.phase.Checking? ==> p.calls == 1)
    && (p.phase.StatusReceipt? || p.phase.StatusVerification? || p.phase.Recovering? || p.phase.Confirming? ==>
        f.result == Some(p.phase.result))
    && (p.phase.StatusVerification? || p.phase.Recovering? ==> Settled(st, p.phase.result))
    && (p.phase.Confirming? ==> p.calls == 1)
    && (p.phase.Proving? ==> ProofSound(st, f, p.phase.verification))
  }

  /** A verification speaks of the stored result, and of a settled transfer. */
  ghost predicate ProofSound(st: State, f: Files, v: Verification) {
    v.proved && f.result.Some? && f.result.value.transaction == Some(v.transaction) && v.transaction in st.settled
  }

  ghost predicate FilesSound(st: State, d: Dir) {
    var f := FilesOf(st, d);
    && (f.plan.Some? ==> (d, f.plan.value) in st.prepared)
    && (f.result.Some? ==> AnsweredIn(st, d, f.result.value))
    && (f.verification.Some? ==> ProofSound(st, f, f.verification.value))
  }

  ghost predicate PaymentSound(st: State, k: nat)
    requires k < |st.payments|
  {
    var pay := st.payments[k];
    && pay.invocation < |st.invocations| && FilesOf(st, pay.dir).attempt == Some(pay.invocation)
    && (pay.dir, pay.terms) in st.prepared
    && var p := st.invocations[pay.invocation];
    p.dir == pay.dir && p.action.Pay? && p.calls == 1 && !AtGate(p.phase)
    && p.through
  }

  ghost predicate PaymentsSound(st: State) {
    && (forall k :: 0 <= k < |st.payments| ==> PaymentSound(st, k))
    && (forall j, k :: 0 <= j < k < |st.payments| ==> st.payments[j].dir != st.payments[k].dir)
  }

  ghost predicate Sound(st: State) {
    && (forall i :: 0 <= i < |st.invocations| ==>
        GateSound(st, st.invocations[i]) && PhaseSound(st, i, st.invocations[i]))
    && FilesSound(st, Original) && FilesSound(st, Demo) && PaymentsSound(st)
  }

  /** Nothing that was once recorded is lost. */
  ghost predicate Grows(f: Files, g: Files) {
    (f.attempt.Some? ==> g.attempt == f.attempt) && (f.result.Some? ==> g.result == f.result)
  }

  ghost predicate StateGrows(st: State, t: State) {
    && Grows(st.original, t.original) && Grows(st.demo, t.demo)
    && st.settled <= t.settled && st.prepared <= t.prepared && st.payments <= t.payments
    && |st.invocations| <= |t.invocations|
  }

  lemma AnsweredGrows(st: State, t: State, d: Dir, a: Answer)
    requires AnsweredIn(st, d, a) && st.payments <= t.payments
    ensures AnsweredIn(t, d, a)
  {
    var k :| 0 <= k < |st.payments| && st.payments[k].dir == d && st.payments[k].answer == Some(a);
    assert t.payments[k] == st.payments[k];
  }

  /** Another invocation's step does not disturb invocation i, unless it pays in the directory i is about to pay in
      or stores the result i is about to store. */
  lemma OthersStaySound(st: State, t: State, i: nat)
    requires StateGrows(st, t) && i < |st.invocations|
    requires GateSound(st, st.invocations[i]) && PhaseSound(st, i, st.invocations[i])
             && t.invocations[i] == st.invocations[i]
    requires st.invocations[i].phase.Paying? ==> !PaidIn(t, st.invocations[i].dir)
    requires st.invocations[i].phase.Saving? ==> FilesOf(t, st.invocations[i].dir).result.None?
    ensures GateSound(t, t.invocations[i]) && PhaseSound(t, i, t.invocations[i])
  {
    var p := st.invocations[i];
    if p.phase.Saving? { AnsweredGrows(st, t, p.dir, p.phase.result); }
  }

  lemma FilesStaySound(st: State, t: State, d: Dir)
    requires StateGrows(st, t) && FilesSound(st, d) && FilesOf(t, d) == FilesOf(st, d)
    ensures FilesSound(t, d)
  {
    var f := FilesOf(st, d);
    if f.result.Some? { AnsweredGrows(st, t, d, f.result.value); }
  }

  lemma PaymentStaysSound(st: State, t: State, k: nat)
    requires StateGrows(st, t) && k < |st.payments| && PaymentSound(st, k)
    requires var i := st.payments[k].invocation;
             Keeps(st.invocations[i], t.invocations[i])
    ensures PaymentSound(t, k)
  {
  }

  /** An invocation keeps what its payments rest on. */
  predicate Keeps(p: Invocation, q: Invocation) {
    && q.dir == p.dir && q.action == p.action && q.calls == p.calls && q.late == p.late
    && (p.through ==> q.through) && (AtGate(q.phase) ==> AtGate(p.phase))
  }

  lemma PaymentsStaySound(st: State, t: State)
    requires StateGrows(st, t) && PaymentsSound(st) && t.payments == st.payments
    requires forall i :: 0 <= i < |st.invocations| && st.invocations[i].calls == 1 ==>
             Keeps(st.invocations[i], t.invocations[i])
    ensures PaymentsSound(t)
  {
    forall k | 0 <= k < |t.payments|
      ensures PaymentSound(t, k)
    {
      assert PaymentSound(st, k);
      PaymentStaysSound(st, t, k);
    }
  }

  /** Invocation i moved; it neither paid nor stored a result. */
  lemma MovedIsSound(st: State, t: State, i: nat)
    requires Sound(st) && StateGrows(st, t) && i < |st.invocations| == |t.invocations| && t.payments == st.payments
    requires forall j :: 0 <= j < |st.invocations| && j != i ==> t.invocations[j] == st.invocations[j]
    requires t.original.result == st.original.result && t.demo.result == st.demo.result
    requires FilesSound(t, Original) && FilesSound(t, Demo)
    requires GateSound(t, t.invocations[i]) && PhaseSound(t, i, t.invocations[i])
    requires st.invocations[i].calls == 1 ==> Keeps(st.invocations[i], t.invocations[i])
    ensures Sound(t)
  {
    forall j | 0 <= j < |t.invocations|
      ensures GateSound(t, t.invocations[j]) && PhaseSound(t, j, t.invocations[j])
    {
      if j != i { OthersStaySound(st, t, j); }
    }
    PaymentsStaySound(st, t);
  }

  /** A move that leaves the files alone. */
  lemma QuietIsSound(st: State, t: State, i: nat)
    requires Sound(st) && i < |st.invocations| && t == st.(invocations := t.invocations)
    requires |t.invocations| == |st.invocations| && forall j :: 0 <= j < |st.invocations| && j != i ==>
             t.invocations[j] == st.invocations[j]
    requires GateSound(t, t.invocations[i]) && PhaseSound(t, i, t.invocations[i])
    requires st.invocations[i].calls == 1 ==> Keeps(st.invocations[i], t.invocations[i])
    ensures Sound(t)
  {
    FilesStaySound(st, t, Original);
    FilesStaySound(st, t, Demo);
    MovedIsSound(st, t, i);
  }

  lemma NextPhaseIsSound(st: State, i: nat, phase: Phase)
    requires Sound(st) && i < |st.invocations|
    requires AtGate(phase) ==> AtGate(st.invocations[i].phase)
    requires var p := st.invocations[i].(phase := phase);
             GateSound(st, p) && PhaseSound(st, i, p)
    ensures Sound(At(st, i, phase))
  {
    QuietIsSound(st, At(st, i, phase), i);
  }

  lemma GateStepIsSound(st: State, i: nat)
    requires Sound(st) && i < |st.invocations| && AtGate(st.invocations[i].phase)
    ensures Sound(GateStep(st, i))
  {
    assert GateSound(st, st.invocations[i]) && PhaseSound(st, i, st.invocations[i]);
    QuietIsSound(st, GateStep(st, i), i);
  }

  /** Writing verification.json or plan.json. */
  lemma WrittenIsSound(st: State, t: State, i: nat)
    requires Sound(st) && i < |st.invocations| && StateGrows(st, t) && t.payments == st.payments
    requires t.invocations == st.invocations[i := st.invocations[i].(phase := Stopped)]
    requires var d := st.invocations[i].dir;
             && (d.Original? ==> t.demo == st.demo) && (d.Demo? ==> t.original == st.original)
             && FilesOf(t, d).result == FilesOf(st, d).result && FilesSound(t, d)
    ensures Sound(t)
  {
    var p := st.invocations[i];
    if p.dir.Original? { FilesStaySound(st, t, Demo); } else { FilesStaySound(st, t, Original); }
    assert GateSound(st, p) && PhaseSound(st, i, p);
    MovedIsSound(st, t, i);
  }

  lemma RecoveryIsSound(st: State, i: nat, yes: bool)
    requires Sound(st) && i < |st.invocations| && st.invocations[i].phase.Recovering?
    ensures Sound(StatusStep(st, i, yes))
  {
    var p := st.invocations[i];
    var t := StatusStep(st, i, yes);
    assert GateSound(st, p) && PhaseSound(st, i, p);
    if FilesOf(t, p.dir) != FilesOf(st, p.dir) {
      WrittenIsSound(st, t, i);
    } else {
      QuietIsSound(st, t, i);
    }
  }

  lemma StatusStepIsSound(st: State, i: nat, yes: bool)
    requires Sound(st) && i < |st.invocations| && !AtGate(st.invocations[i].phase)
    ensures Sound(StatusStep(st, i, yes))
  {
    var p := st.invocations[i];
    if p.phase.Recovering? {
      RecoveryIsSound(st, i, yes);
    } else {
      QuietStatusStep(st, i, yes);
    }
  }

  lemma QuietStatusStep(st: State, i: nat, yes: bool)
    requires Sound(st) && i < |st.invocations|
    requires !AtGate(st.invocations[i].phase) && !st.invocations[i].phase.Recovering?
    ensures Sound(StatusStep(st, i, yes))
  {
    var p := st.invocations[i];
    assert GateSound(st, p) && PhaseSound(st, i, p);
    if p.phase.Opened? || p.phase.StatusReceipt? || p.phase.StatusVerification? {
      NextPhaseIsSound(st, i, StatusStep(st, i, yes).invocations[i].phase);
    }
  }

  lemma NothingPaid(st: State, d: Dir)
    requires PaymentsSound(st) && FilesOf(st, d).attempt.None?
    ensures !PaidIn(st, d)
  {
    forall k | 0 <= k < |st.payments|
      ensures st.payments[k].dir != d
    {
      assert PaymentSound(st, k);
    }
  }

  /** Only one invocation ever owns the marker of a directory. */
  lemma OneOwner(st: State, i: nat, j: nat)
    requires i < |st.invocations| && j < |st.invocations| && i != j && st.invocations[i].calls > 0
    requires PhaseSound(st, i, st.invocations[i]) && PhaseSound(st, j, st.invocations[j])
    ensures st.invocations[j].calls > 0 ==> st.invocations[i].dir != st.invocations[j].dir
  {
  }

  lemma MarkIsSound(st: State, i: nat, answer: Option<Answer>)
    requires Sound(st) && i < |st.invocations| && st.invocations[i].phase.Running?
    requires FilesOf(st, st.invocations[i].dir).attempt.None?
    ensures Sound(PayStep(st, i, true, answer))
  {
    var p := st.invocations[i];
    var t := PayStep(st, i, true, answer);
    assert GateSound(st, p) && PhaseSound(st, i, p);
    NothingPaid(st, p.dir);
    NoResultYet(st, p.dir);
    if p.dir.Original? { FilesStaySound(st, t, Demo); } else { FilesStaySound(st, t, Original); }
    MovedIsSound(st, t, i);
  }

  lemma PaymentIsSound(st: State, i: nat, yes: bool, answer: Option<Answer>)
    requires Sound(st) && i < |st.invocations| && st.invocations[i].phase.Paying?
    ensures Sound(PayStep(st, i, yes, answer))
  {
    var p := st.invocations[i];
    var t := PayStep(st, i, yes, answer);
    assert GateSound(st, p) && PhaseSound(st, i, p);
    var n := |st.payments|;
    assert t.payments[n] == Payment(p.dir, i, p.terms, answer);
    forall j | 0 <= j < |t.invocations|
      ensures GateSound(t, t.invocations[j]) && PhaseSound(t, j, t.invocations[j])
    {
      if j != i {
        OneOwner(st, i, j);
        OthersStaySound(st, t, j);
      } else if answer.Some? {
        NoResultYet(st, p.dir);
        assert AnsweredIn(t, p.dir, answer.value);
      }
    }
    FilesStaySound(st, t, Original);
    FilesStaySound(st, t, Demo);
    forall k | 0 <= k < |t.payments|
      ensures PaymentSound(t, k)
    {
      if k < n { assert PaymentSound(st, k); PaymentStaysSound(st, t, k); }
    }
  }

  lemma NoResultYet(st: State, d: Dir)
    requires FilesSound(st, d) && !PaidIn(st, d)
    ensures FilesOf(st, d).result.None?
  {
  }

  lemma SavingIsSound(st: State, i: nat, yes: bool, answer: Option<Answer>)
    requires Sound(st) && i < |st.invocations| && st.invocations[i].phase.Saving?
    ensures Sound(PayStep(st, i, yes, answer))
  {
    var p := st.invocations[i];
    var t := PayStep(st, i, yes, answer);
    assert GateSound(st, p) && PhaseSound(st, i, p);
    forall j | 0 <= j < |t.invocations|
      ensures GateSound(t, t.invocations[j]) && PhaseSound(t, j, t.invocations[j])
    {
      if j != i {
        OneOwner(st, i, j);
        OthersStaySound(st, t, j);
      }
    }
    AnsweredGrows(st, t, p.dir, p.phase.result);
    if p.dir.Original? { FilesStaySound(st, t, Demo); } else { FilesStaySound(st, t, Original); }
    PaymentsStaySound(st, t);
  }

  lemma UnattemptedIsSound(st: State, i: nat, yes: bool, answer: Option<Answer>)
    requires Sound(st) && i < |st.invocations| && st.invocations[i].phase.Unattempted?
    requires !st.invocations[i].action.Status?
    ensures Sound(PayStep(st, i, yes, answer))
  {
    var p := st.invocations[i];
    assert GateSound(st, p) && PhaseSound(st, i, p);
    if p.action.Prepare? {
      WrittenIsSound(st, PayStep(st, i, yes, answer), i);
    } else {
      QuietIsSound(st, PayStep(st, i, yes, answer), i);
    }
  }

  lemma RunningIsSound(st: State, i: nat, yes: bool, answer: Option<Answer>)
    requires Sound(st) && i < |st.invocations| && st.invocations[i].phase.Running?
    ensures Sound(PayStep(st, i, yes, answer))
  {
    var p := st.invocations[i];
    assert GateSound(st, p) && PhaseSound(st, i, p);
    if !yes {
      QuietIsSound(st, PayStep(st, i, yes, answer), i);
    } else if FilesOf(st, p.dir).attempt.None? {
      MarkIsSound(st, i, answer);
    }
  }

  lemma ProvingIsSound(st: State, i: nat, yes: bool, answer: Option<Answer>)
    requires Sound(st) && i < |st.invocations| && st.invocations[i].phase.Proving?
    ensures Sound(PayStep(st, i, yes, answer))
  {
    assert GateSound(st, st.invocations[i]) && PhaseSound(st, i, st.invocations[i]);
    WrittenIsSound(st, PayStep(st, i, yes, answer), i);
  }

  lemma PayStepIsSound(st: State, i: nat, yes: bool, answer: Option<Answer>)
    requires Sound(st) && i < |st.invocations| && !AtGate(st.invocations[i].phase) && !st.invocations[i].action.Status?
    ensures Sound(PayStep(st, i, yes, answer))
  {
    match st.invocations[i].phase
    case Unattempted => UnattemptedIsSound(st, i, yes, answer);
    case Running => RunningIsSound(st, i, yes, answer);
    case Paying => PaymentIsSound(st, i, yes, answer);
    case Saving(_) => SavingIsSound(st, i, yes, answer);
    case Proving(_) => ProvingIsSound(st, i, yes, answer);
    case _ => QuietPayStep(st, i, yes, answer);
  }

  lemma QuietPayStep(st: State, i: nat, yes: bool, answer: Option<Answer>)
    requires Sound(st) && i < |st.invocations| && !AtGate(st.invocations[i].phase)
    requires var phase := st.invocations[i].phase;
             !phase.Unattempted? && !phase.Running? && !phase.Paying? && !phase.Saving? && !phase.Proving?
    ensures Sound(PayStep(st, i, yes, answer))
  {
    assert GateSound(st, st.invocations[i]) && PhaseSound(st, i, st.invocations[i]);
    NextPhaseIsSound(st, i, PayStep(st, i, yes, answer).invocations[i].phase);
  }

  lemma StartIsSound(st: State, action: Action, dir: Dir, terms: int)
    requires Sound(st)
    ensures Sound(Step(st, Start(action, dir, terms)))
  {
    var t := Step(st, Start(action, dir, terms));
    forall j | 0 <= j < |st.invocations|
      ensures GateSound(t, t.invocations[j]) && PhaseSound(t, j, t.invocations[j])
    {
      OthersStaySound(st, t, j);
    }
    FilesStaySound(st, t, Original);
    FilesStaySound(st, t, Demo);
    PaymentsStaySound(st, t);
  }

  lemma StepIsSound(st: State, e: Event)
    requires Sound(st)
    ensures Sound(Step(st, e))
  {
    match e
    case Start(action, dir, terms) => StartIsSound(st, action, dir, terms);
    case Settle(tx) => SettleIsSound(st, tx);
    case Crash(i) =>
      if i < |st.invocations| {
        assert GateSound(st, st.invocations[i]) && PhaseSound(st, i, st.invocations[i]);
        QuietIsSound(st, Step(st, e), i);
      }
    case Proceed(i, yes, answer) =>
      if i < |st.invocations| {
        if AtGate(st.invocations[i].phase) { GateStepIsSound(st, i); }
        else if st.invocations[i].action.Status? { StatusStepIsSound(st, i, yes); }
        else { PayStepIsSound(st, i, yes, answer); }
      }
  }

  lemma SettleIsSound(st: State, tx: nat)
    requires Sound(st)
    ensures Sound(Step(st, Settle(tx)))
  {
    var t := Step(st, Settle(tx));
    forall j | 0 <= j < |st.invocations|
      ensures GateSound(t, t.invocations[j]) && PhaseSound(t, j, t.invocations[j])
    {
      OthersStaySound(st, t, j);
    }
    FilesStaySound(st, t, Original);
    FilesStaySound(st, t, Demo);
    PaymentsStaySound(st, t);
  }

  lemma {:induction false} RunIsSound(st: State, events: seq<Event>)
    requires Sound(st)
    ensures Sound(Run(st, events))
    decreases |events|
  {
    if events != [] {
      StepIsSound(st, events[0]);
      RunIsSound(Step(st, events[0]), events[1..]);
    }
  }

  lemma AtMostTwo(dirs: seq<Dir>)
    requires forall j, k :: 0 <= j < k < |dirs| ==> dirs[j] != dirs[k]
    ensures |dirs| <= 2
  {
    if |dirs| > 2 { TwoOfThreeAgree(dirs[0], dirs[1], dirs[2]); }
  }

  lemma TwoOfThreeAgree(a: Dir, b: Dir, c: Dir)
    ensures a == b || b == c || a == c
  {
  }

  /** Any number of invocations, crashes and interleavings: the payer is called at most once per directory
      and at most twice in all, only by `run` on terms that were prepared before. */
  lemma PayerCalls(events: seq<Event>)
    ensures var st := Run(INITIAL, events);
            && |st.payments| <= 2
            && (forall j, k :: 0 <= j < k < |st.payments| ==> st.payments[j].dir != st.payments[k].dir)
            && (forall k :: 0 <= k < |st.payments| ==>
                  && st.payments[k].invocation < |st.invocations|
                      && st.invocations[st.payments[k].invocation].action.Pay?
                  && (st.payments[k].dir, st.payments[k].terms) in st.prepared)
  {
    RunIsSound(INITIAL, events);
    var st := Run(INITIAL, events);
    forall k | 0 <= k < |st.payments|
      ensures st.payments[k].invocation < |st.invocations| && st.invocations[st.payments[k].invocation].action.Pay?
              && (st.payments[k].dir, st.payments[k].terms) in st.prepared
    {
      assert PaymentSound(st, k);
    }
    AtMostTwo(seq(|st.payments|, k requires 0 <= k < |st.payments| => st.payments[k].dir));
  }

  /** Over every run a demo through its gate was let through on the original attempt's answer iff the gate had
      found that attempt; the answer is then ok, status 200, with a transaction whose receipt proves the transfer. */
  lemma GateExact(events: seq<Event>, i: nat)
    requires i < |Run(INITIAL, events).invocations|
    requires var p := Run(INITIAL, events).invocations[i]; p.dir.Demo? && p.through
    ensures var st := Run(INITIAL, events);
            var p := st.invocations[i];
            && p.found.Some? && (p.passed.Some? <==> p.found == Some(true)) && (p.late ==> p.found == Some(true))
            && (p.found == Some(true) ==>
                  var a := p.passed.value;
                  && a.ok && a.status == 200 && Settled(st, a)
                  && st.original.result == Some(a) && AnsweredIn(st, Original, a))
  {
    RunIsSound(INITIAL, events);
    var st := Run(INITIAL, events);
    assert GateSound(st, st.invocations[i]);
  }

  /** A demo whose gate found the original attempt, in particular one started after it, pays only if that
      attempt's one payer call answered ok with status 200 and a settled transaction. */
  lemma DemoAfterAttempt(events: seq<Event>, k: nat)
    requires k < |Run(INITIAL, events).payments|
    requires var st := Run(INITIAL, events);
             && st.payments[k].dir.Demo? && st.payments[k].invocation < |st.invocations|
             && var p := st.invocations[st.payments[k].invocation]; p.late || p.found == Some(true)
    ensures var st := Run(INITIAL, events);
            exists j :: 0 <= j < |st.payments| && st.payments[j].dir.Original? && st.payments[j].answer.Some?
                        && st.payments[j].answer == st.original.result
                        && var a := st.payments[j].answer.value; a.ok && a.status == 200 && Settled(st, a)
  {
    RunIsSound(INITIAL, events);
    var st := Run(INITIAL, events);
    assert PaymentSound(st, k);
    GateExact(events, st.payments[k].invocation);
    var r := st.invocations[st.payments[k].invocation].passed.value;
    assert AnsweredIn(st, Original, r);
  }

  // ----- A demo whose gate found nothing -----

  function Quiet(i: nat): Event { Proceed(i, true, None) }

  /** `prepare` in the next free place. */
  lemma Prepares(st: State, d: Dir) returns (t: State)
    requires Reachable(Step, INITIAL, st) && st.original.attempt.None? && FilesOf(st, d).attempt.None?
    ensures Reachable(Step, INITIAL, t) && FilesOf(t, d) == FilesOf(st, d).(plan := Some(1))
            && t.payments == st.payments
    ensures (if d.Original? then t.demo == st.demo else t.original == st.original)
  {
    var i := |st.invocations|;
    t := Follows(Step, INITIAL, st, Start(Prepare, d, 1));
    if d.Demo? {
      t := Follows(Step, INITIAL, t, Quiet(i));
    }
    t := Follows(Step, INITIAL, t, Quiet(i));
    t := Follows(Step, INITIAL, t, Quiet(i));
  }

  /** From a started `run` to its loop. */
  lemma Begins(st: State, i: nat) returns (t: State)
    requires Reachable(Step, INITIAL, st) && i < |st.invocations|
    requires st.invocations[i].phase.Opened? && st.invocations[i].action.Pay?
    requires FilesOf(st, st.invocations[i].dir).attempt.None?
    requires FilesOf(st, st.invocations[i].dir).plan == Some(st.invocations[i].terms)
    ensures Reachable(Step, INITIAL, t) && t == At(st, i, Running)
  {
    t := Follows(Step, INITIAL, st, Quiet(i));
    t := Follows(Step, INITIAL, t, Quiet(i));
  }

  /** From the loop, in a directory with no marker, to the payer's answer. */
  lemma Calls(st: State, i: nat, answer: Option<Answer>) returns (t: State)
    requires Reachable(Step, INITIAL, st) && i < |st.invocations|
    requires st.invocations[i].phase.Running? && st.invocations[i].action.Pay?
    requires FilesOf(st, st.invocations[i].dir).attempt.None?
    ensures Reachable(Step, INITIAL, t) && |t.invocations| == |st.invocations|
    ensures forall j :: 0 <= j < |st.invocations| && j != i ==> t.invocations[j] == st.invocations[j]
    ensures t.invocations[i].found == st.invocations[i].found
    ensures t.payments == st.payments + [Payment(st.invocations[i].dir, i, st.invocations[i].terms, answer)]
    ensures var d := st.invocations[i].dir;
            FilesOf(t, d) == FilesOf(st, d).(attempt := Some(i))
                && (if d.Original? then t.demo == st.demo else t.original == st.original)
  {
    t := Follows(Step, INITIAL, st, Quiet(i));
    t := Follows(Step, INITIAL, t, Proceed(i, true, answer));
  }

  /** From a started `run` to the payer's answer. */
  lemma Pays(st: State, i: nat, answer: Option<Answer>) returns (t: State)
    requires Reachable(Step, INITIAL, st) && i < |st.invocations|
    requires st.invocations[i].phase.Opened? && st.invocations[i].action.Pay?
    requires FilesOf(st, st.invocations[i].dir).attempt.None?
    requires FilesOf(st, st.invocations[i].dir).plan == Some(st.invocations[i].terms)
    ensures Reachable(Step, INITIAL, t) && |t.invocations| == |st.invocations|
    ensures forall j :: 0 <= j < |st.invocations| && j != i ==> t.invocations[j] == st.invocations[j]
    ensures t.invocations[i].found == st.invocations[i].found
    ensures t.payments == st.payments + [Payment(st.invocations[i].dir, i, st.invocations[i].terms, answer)]
    ensures var d := st.invocations[i].dir;
            FilesOf(t, d) == FilesOf(st, d).(attempt := Some(i))
                && (if d.Original? then t.demo == st.demo else t.original == st.original)
  {
    t := Begins(st, i);
    t := Calls(t, i, answer);
  }

  /** A demo that passed its gate before the original attempt was made pays, although that attempt has failed. */
  lemma EarlyDemoPays() returns (st: State)
    ensures Reachable(Step, INITIAL, st) && |st.payments| == 2
    ensures st.payments[0].dir.Original? && st.payments[0].answer.None?
    ensures st.payments[1].dir.Demo?
    ensures var i := st.payments[1].invocation; i < |st.invocations| && st.invocations[i].found == Some(false)
  {
    StartIsReachable(Step, INITIAL);
    st := Prepares(INITIAL, Original);
    st := Prepares(st, Demo);
    var i := |st.invocations|;
    st := Follows(Step, INITIAL, st, Start(Pay, Demo, 1));
    st := Follows(Step, INITIAL, st, Quiet(i));
    st := Follows(Step, INITIAL, st, Start(Pay, Original, 1));
    st := Pays(st, i + 1, None);
    st := Pays(st, i, None);
  }
}

/** The health alerter: what each run says about each check, what it remembers, and what was really delivered. */
module Alerts {
  import opened Machines
  import opened Options

  datatype Result = Result(name: string, ok: bool, skipped: bool, once: bool)

  datatype Memory = Memory(failing: bool, lastAlert: Option<int>)

  datatype Speech = Silent | SayAlert | SayRecovered

  const NOTHING := Memory(false, None)

  function Previous(state: map<string, Memory>, name: string): Memory {
    if name in state then state[name] else NOTHING
  }

  function SpeechOf(r: Result, p: Memory, now: int, repeat: int): Speech {
    if r.skipped then Silent
    else if r.ok then (if p.failing then SayRecovered else Silent)
    else if r.once then (if p.failing then Silent else SayAlert)
    else if p.lastAlert.None? || now - p.lastAlert.value >= repeat then SayAlert
    else Silent
  }

  function MemoryOf(r: Result, p: Memory, now: int, repeat: int): Memory {
    if r.ok then NOTHING
    else Memory(true, if SpeechOf(r, p, now, repeat).SayAlert? then Some(now) else p.lastAlert)
  }

  // ----- One run, check by check -----

  /** The results about which `said` is said, in order. */
  function Said(results: seq<Result>, state: map<string, Memory>, now: int, repeat: int, said: Speech): seq<Result> {
    if results == [] then []
    else
      var last := results[|results| - 1];
      var before := Said(results[..|results| - 1], state, now, repeat, said);
      if SpeechOf(last, Previous(state, last.name), now, repeat) == said then before + [last] else before
  }

  function Remembered(results: seq<Result>, state: map<string, Memory>, now: int, repeat: int): map<string, Memory> {
    if results == [] then state
    else
      var last := results[|results| - 1];
      var before := Remembered(results[..|results| - 1], state, now, repeat);
      if last.skipped then before else before[last.name := MemoryOf(last, Previous(state, last.name), now, repeat)]
  }

  /** `triage`: what to alert about, what recovered, and what to remember if the message is delivered. */
  method Triage(results: seq<Result>, state: map<string, Memory>, now: int, repeat: int)
    returns (toAlert: seq<Result>, recovered: seq<Result>, next: map<string, Memory>)
    ensures toAlert == Said(results, state, now, repeat, SayAlert)
    ensures recovered == Said(results, state, now, repeat, SayRecovered)
    ensures next == Remembered(results, state, now, repeat)
  {
    toAlert, recovered, next := [], [], state;
    for k := 0 to |results|
      invariant toAlert == Said(results[..k], state, now, repeat, SayAlert)
      invariant recovered == Said(results[..k], state, now, repeat, SayRecovered)
      invariant next == Remembered(results[..k], state, now, repeat)
    {
      assert results[..k + 1][..k] == results[..k];
      var result := results[k];
      if result.skipped {
        continue;
      }
      var previous := Previous(state, result.name);
      if result.ok {
        if previous.failing {
          recovered := recovered + [result];
        }
        next := next[result.name := Memory(false, None)];
        continue;
      }
      var lastAlert := previous.lastAlert;
      if result.once {
        if previous.failing {
          next := next[result.name := Memory(true, lastAlert)];
        } else {
          toAlert := toAlert + [result];
          next := next[result.name := Memory(true, Some(now))];
        }
      } else if lastAlert.None? || now - lastAlert.value >= repeat {
        toAlert := toAlert + [result];
        next := next[result.name := Memory(true, Some(now))];
      } else {
        next := next[result.name := Memory(true, lastAlert)];
      }
    }
    assert results[..|results|] == results;
  }

  // ----- Delivered messages -----

  datatype Message = Message(name: string, alert: bool, once: bool, time: int)

  /** The last delivered message about a check. */
  function Last(log: seq<Message>, name: string): Option<Message> {
    if log == [] then None
    else if log[|log| - 1].name == name then Some(log[|log| - 1])
    else Last(log[..|log| - 1], name)
  }

  function Messages(results: seq<Result>, alert: bool, now: int): seq<Message> {
    seq(|results|, k requires 0 <= k < |results| => Message(results[k].name, alert, results[k].once, now))
  }

  /** What one delivered message says, alerts first. */
  function Told(results: seq<Result>, state: map<string, Memory>, now: int, repeat: int): seq<Message> {
    Messages(Said(results, state, now, repeat, SayAlert), true, now)
    + Messages(Said(results, state, now, repeat, SayRecovered), false, now)
  }

  datatype System = System(state: map<string, Memory>, log: seq<Message>)

  datatype Pass = Pass(results: seq<Result>, now: int, delivered: bool)

  /** One pass of `main`: an undelivered message leaves the saved state as it was. */
  function Step(s: System, p: Pass, repeat: int): System {
    var told := Told(p.results, s.state, p.now, repeat);
    if told != [] && !p.delivered then s
    else System(Remembered(p.results, s.state, p.now, repeat), s.log + told)
  }

  function Run(s: System, passes: seq<Pass>, repeat: int): System {
    Fold((before: System, p: Pass) => Step(before, p, repeat), s, passes)
  }

  const INITIAL := System(map[], [])

  ghost predicate Distinct(results: seq<Result>) {
    forall i, j :: 0 <= i < j < |results| ==> results[i].name != results[j].name
  }

  /** `main`: triage, deliver, and save what was said only if it got through. */
  class Alerter {
    var saved: map<string, Memory>
    var log: seq<Message>

    ghost function Abstract(): System
      reads this
    {
      System(saved, log)
    }

    constructor ()
      ensures Abstract() == INITIAL
    {
      saved, log := map[], [];
    }

    method Check(p: Pass, repeat: int)
      modifies this
      ensures Abstract() == Step(old(Abstract()), p, repeat)
    {
      var toAlert, recovered, next := Triage(p.results, saved, p.now, repeat);
      var message := Messages(toAlert, true, p.now) + Messages(recovered, false, p.now);
      if message != [] {
        if p.delivered {
          log := log + message;
        } else {
          next := saved;
        }
      }
      saved := next;
    }
  }

  // ----- The saved state is a summary of what was delivered -----

  predicate Summarises(m: Memory, last: Option<Message>) {
    if last.Some? && last.value.alert then m == Memory(true, Some(last.value.time)) else m == NOTHING
  }

  ghost predicate Summary(s: System) {
    forall name: string :: Summarises(Previous(s.state, name), Last(s.log, name))
  }

  /** A recovery answers an alert. An alert opens an episode, or repeats one that may repeat, late enough. */
  predicate Follows(last: Option<Message>, m: Message, repeat: int) {
    if m.alert then last.None? || !last.value.alert || (!m.once && m.time - last.value.time >= repeat)
    else last.Some? && last.value.alert
  }

  ghost predicate Proper(log: seq<Message>, repeat: int) {
    forall k :: 0 <= k < |log| ==> Follows(Last(log[..k], log[k].name), log[k], repeat)
  }

  lemma {:induction false} SaidIff(results: seq<Result>, state: map<string, Memory>, now: int, repeat: int,
                                   said: Speech, r: Result)
    ensures r in Said(results, state, now, repeat, said)
       <==> r in results && SpeechOf(r, Previous(state, r.name), now, repeat) == said
  {
    if results != [] {
      var before := results[..|results| - 1];
      assert results == before + [results[|results| - 1]];
      SaidIff(before, state, now, repeat, said, r);
    }
  }

  lemma {:induction false} SaidDistinct(results: seq<Result>, state: map<string, Memory>, now: int, repeat: int,
                                        said: Speech)
    requires Distinct(results)
    ensures Distinct(Said(results, state, now, repeat, said))
  {
    if results != [] {
      var before := results[..|results| - 1];
      SaidDistinct(before, state, now, repeat, said);
      var spoken := Said(before, state, now, repeat, said);
      forall i | 0 <= i < |spoken|
        ensures spoken[i].name != results[|results| - 1].name
      {
        SaidIff(before, state, now, repeat, said, spoken[i]);
        assert spoken[i] in before;
      }
    }
  }

  lemma {:induction false} RememberedAt(results: seq<Result>, state: map<string, Memory>, now: int, repeat: int,
                                        name: string)
    requires Distinct(results)
    ensures var next := Remembered(results, state, now, repeat);
            && (forall r :: r in results && r.name == name && !r.skipped ==>
                  Previous(next, name) == MemoryOf(r, Previous(state, name), now, repeat))
            && ((forall r :: r in results && r.name == name ==> r.skipped) ==>
                Previous(next, name) == Previous(state, name))
  {
    if results != [] {
      var before := results[..|results| - 1];
      var last := results[|results| - 1];
      RememberedAt(before, state, now, repeat, name);
      assert results == before + [last];
      forall r | r in results && r.name == name && last.name == name
        ensures r == last
      {
      }
    }
  }

  /** The messages of one pass: one a check at most, each with the speech of its result. */
  lemma ToldIs(results: seq<Result>, state: map<string, Memory>, now: int, repeat: int)
    requires Distinct(results)
    ensures var told := Told(results, state, now, repeat);
            && (forall i, j :: 0 <= i < j < |told| ==> told[i].name != told[j].name)
            && (forall i :: 0 <= i < |told| ==> FromResult(told[i], results, state, now, repeat))
  {
    var alerts := Said(results, state, now, repeat, SayAlert);
    var recoveries := Said(results, state, now, repeat, SayRecovered);
    SaidDistinct(results, state, now, repeat, SayAlert);
    SaidDistinct(results, state, now, repeat, SayRecovered);
    forall i | 0 <= i < |alerts|
      ensures alerts[i] in results && SpeechOf(alerts[i], Previous(state, alerts[i].name), now, repeat) == SayAlert
    {
      SaidIff(results, state, now, repeat, SayAlert, alerts[i]);
    }
    forall i | 0 <= i < |recoveries|
      ensures recoveries[i] in results
              && SpeechOf(recoveries[i], Previous(state, recoveries[i].name), now, repeat) == SayRecovered
    {
      SaidIff(results, state, now, repeat, SayRecovered, recoveries[i]);
    }
    var told := Told(results, state, now, repeat);
    forall i | 0 <= i < |told|
      ensures FromResult(told[i], results, state, now, repeat)
    {
      var r := if i < |alerts| then alerts[i] else recoveries[i - |alerts|];
      assert r in results;
    }
  }

  ghost predicate FromResult(m: Message, results: seq<Result>, state: map<string, Memory>, now: int, repeat: int) {
    exists r :: r in results && m == Message(r.name, m.alert, r.once, now)
      && SpeechOf(r, Previous(state, r.name), now, repeat) == if m.alert then SayAlert else SayRecovered
  }

  lemma ToldAbout(results: seq<Result>, state: map<string, Memory>, now: int, repeat: int, r: Result)
    requires r in results
    ensures var told := Told(results, state, now, repeat);
            var speech := SpeechOf(r, Previous(state, r.name), now, repeat);
            && (speech == SayAlert ==> Message(r.name, true, r.once, now) in told)
            && (speech == SayRecovered ==> Message(r.name, false, r.once, now) in told)
  {
    var alerts := Said(results, state, now, repeat, SayAlert);
    var recoveries := Said(results, state, now, repeat, SayRecovered);
    SaidIff(results, state, now, repeat, SayAlert, r);
    SaidIff(results, state, now, repeat, SayRecovered, r);
    var told := Told(results, state, now, repeat);
    if r in alerts {
      var i :| 0 <= i < |alerts| && alerts[i] == r;
      assert told[i] == Message(r.name, true, r.once, now);
    }
    if r in recoveries {
      var i :| 0 <= i < |recoveries| && recoveries[i] == r;
      assert told[|alerts| + i] == Message(r.name, false, r.once, now);
    }
  }

  lemma {:induction false} LastAppend(log: seq<Message>, more: seq<Message>, name: string)
    requires forall i, j :: 0 <= i < j < |more| ==> more[i].name != more[j].name
    ensures forall k :: 0 <= k < |more| && more[k].name == name ==> Last(log + more, name) == Some(more[k])
    ensures (forall k :: 0 <= k < |more| ==> more[k].name != name) ==> Last(log + more, name) == Last(log, name)
  {
    if more == [] {
      assert log + more == log;
    } else {
      var init := more[..|more| - 1];
      assert (log + more)[..|log + more| - 1] == log + init;
      LastAppend(log, init, name);
      assert forall k :: 0 <= k < |init| ==> init[k] == more[k];
    }
  }

  lemma {:induction false} ProperAppend(log: seq<Message>, more: seq<Message>, repeat: int)
    requires Proper(log, repeat)
    requires forall i, j :: 0 <= i < j < |more| ==> more[i].name != more[j].name
    requires forall i :: 0 <= i < |more| ==> Follows(Last(log, more[i].name), more[i], repeat)
    ensures Proper(log + more, repeat)
  {
    var all := log + more;
    forall k | 0 <= k < |all|
      ensures Follows(Last(all[..k], all[k].name), all[k], repeat)
    {
      if k < |log| {
        assert all[..k] == log[..k];
      } else {
        var before := more[..k - |log|];
        assert all[..k] == log + before;
        LastAppend(log, before, all[k].name);
      }
    }
  }

  lemma ToldFollows(s: System, p: Pass, repeat: int, m: Message)
    requires Summary(s) && FromResult(m, p.results, s.state, p.now, repeat)
    ensures Follows(Last(s.log, m.name), m, repeat)
  {
    assert Summarises(Previous(s.state, m.name), Last(s.log, m.name));
  }

  /** After a pass whose message got through, or that had nothing to say, each check is remembered as what
      was last said about it. */
  lemma CheckIsSummarised(s: System, p: Pass, repeat: int, name: string)
    requires Summary(s) && Distinct(p.results)
    ensures var told := Told(p.results, s.state, p.now, repeat);
            Summarises(Previous(Remembered(p.results, s.state, p.now, repeat), name), Last(s.log + told, name))
  {
    var told := Told(p.results, s.state, p.now, repeat);
    ToldIs(p.results, s.state, p.now, repeat);
    LastAppend(s.log, told, name);
    RememberedAt(p.results, s.state, p.now, repeat, name);
    assert Summarises(Previous(s.state, name), Last(s.log, name));
    if k :| 0 <= k < |told| && told[k].name == name {
      assert FromResult(told[k], p.results, s.state, p.now, repeat);
    } else if r :| r in p.results && r.name == name && !r.skipped {
      ToldAbout(p.results, s.state, p.now, repeat, r);
    }
  }

  lemma StepKeepsSummary(s: System, p: Pass, repeat: int)
    requires Summary(s) && Proper(s.log, repeat) && Distinct(p.results)
    ensures Summary(Step(s, p, repeat)) && Proper(Step(s, p, repeat).log, repeat)
  {
    var told := Told(p.results, s.state, p.now, repeat);
    if told == [] || p.delivered {
      forall name: string
        ensures Summarises(Previous(Remembered(p.results, s.state, p.now, repeat), name), Last(s.log + told, name))
      {
        CheckIsSummarised(s, p, repeat, name);
      }
      ToldIs(p.results, s.state, p.now, repeat);
      forall i | 0 <= i < |told|
        ensures Follows(Last(s.log, told[i].name), told[i], repeat)
      {
        ToldFollows(s, p, repeat, told[i]);
      }
      ProperAppend(s.log, told, repeat);
    }
  }

  lemma {:induction false} RunKeepsSummary(s: System, passes: seq<Pass>, repeat: int)
    requires Summary(s) && Proper(s.log, repeat)
    requires forall k :: 0 <= k < |passes| ==> Distinct(passes[k].results)
    ensures Summary(Run(s, passes, repeat)) && Proper(Run(s, passes, repeat).log, repeat)
    decreases |passes|
  {
    if passes != [] {
      StepKeepsSummary(s, passes[0], repeat);
      RunKeepsSummary(Step(s, passes[0], repeat), passes[1..], repeat);
    }
  }

  /** Over every sequence of passes, with skipped checks and failed deliveries: recoveries answer alerts, an
      episode of a `once` check is alerted once, other alerts of one episode are the repeat interval apart,
      and the saved state is exactly a summary of what was delivered. */
  lemma EveryRun(passes: seq<Pass>, repeat: int)
    requires forall k :: 0 <= k < |passes| ==> Distinct(passes[k].results)
    ensures Summary(Run(INITIAL, passes, repeat)) && Proper(Run(INITIAL, passes, repeat).log, repeat)
  {
    RunKeepsSummary(INITIAL, passes, repeat);
  }

  /** Two alerts about a check with none of its messages in between: not a `once` alert, and far enough apart. */
  lemma RepeatedAlerts(log: seq<Message>, repeat: int, j: nat, k: nat)
    requires Proper(log, repeat) && j < k < |log| && log[j].alert && log[k].alert && log[j].name == log[k].name
    requires forall i :: j < i < k ==> log[i].name != log[k].name
    ensures !log[k].once && log[k].time - log[j].time >= repeat
  {
    LastIsAt(log[..k], log[k].name, j);
  }

  lemma {:induction false} LastIsAt(log: seq<Message>, name: string, j: nat)
    requires j < |log| && log[j].name == name && forall i :: j < i < |log| ==> log[i].name != name
    ensures Last(log, name) == Some(log[j])
  {
    if j < |log| - 1 { LastIsAt(log[..|log| - 1], name, j); }
  }

  /** After a pass that got through, the last word about every check that was looked at is the truth. */
  lemma DeliveredIsTrue(s: System, p: Pass, repeat: int, r: Result)
    requires Summary(s) && Distinct(p.results) && r in p.results && !r.skipped
    requires Told(p.results, s.state, p.now, repeat) == [] || p.delivered
    ensures var last := Last(Step(s, p, repeat).log, r.name);
            !r.ok <==> last.Some? && last.value.alert
  {
    CheckIsSummarised(s, p, repeat, r.name);
    RememberedAt(p.results, s.state, p.now, repeat, r.name);
  }

  /** An undelivered pass changes nothing, and what it wanted to say about a check is said again by any later
      pass that sees the same. */
  lemma UndeliveredIsRetried(s: System, p: Pass, q: Pass, repeat: int, r: Result)
    requires Told(p.results, s.state, p.now, repeat) != [] && !p.delivered && p.now <= q.now
    requires r in p.results && r in q.results
    ensures Step(s, p, repeat) == s
    ensures var speech := SpeechOf(r, Previous(s.state, r.name), p.now, repeat);
            var told := Told(q.results, s.state, q.now, repeat);
            && (speech.SayAlert? ==> Message(r.name, true, r.once, q.now) in told)
            && (speech.SayRecovered? ==> Message(r.name, false, r.once, q.now) in told)
  {
    ToldAbout(q.results, s.state, q.now, repeat, r);
  }
}

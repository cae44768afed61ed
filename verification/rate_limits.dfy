/** Sliding-window admission. The reference decision looks at everything ever admitted; the two limiters
    of the plugin keep pruned lists and must decide the same. */
module SlidingWindows {
  type User = nat

  datatype Admission = Admission(at: real, user: User)

  /** The admissions later than `after`. */
  function Since(history: seq<Admission>, after: real): seq<Admission> {
    if history == [] then []
    else
      var n := |history| - 1;
      if after < history[n].at then Since(history[..n], after) + [history[n]] else Since(history[..n], after)
  }

  function Of(history: seq<Admission>, u: User): seq<real> {
    if history == [] then []
    else
      var n := |history| - 1;
      if history[n].user == u then Of(history[..n], u) + [history[n].at] else Of(history[..n], u)
  }

  function Times(history: seq<Admission>): seq<real> {
    if history == [] then []
    else
      var n := |history| - 1;
      Times(history[..n]) + [history[n].at]
  }

  datatype Limits = Limits(window: real, perUser: nat, overall: nat)

  /** The decision on the admissions that are still counted. */
  predicate Allows(recent: seq<Admission>, l: Limits, u: User) {
    |Of(recent, u)| < l.perUser && |recent| < l.overall
  }

  /** The reference decision, from the whole history. */
  predicate Admits(history: seq<Admission>, l: Limits, u: User, now: real) {
    Allows(Since(history, now - l.window), l, u)
  }

  /** The admissions in the half-open window (after, until]. */
  function Between(history: seq<Admission>, after: real, until: real): seq<Admission> {
    if history == [] then []
    else
      var n := |history| - 1;
      if after < history[n].at <= until then Between(history[..n], after, until) + [history[n]]
      else Between(history[..n], after, until)
  }

  ghost predicate Within(seen: seq<Admission>, l: Limits) {
    |seen| <= l.overall && forall u: User :: |Of(seen, u)| <= l.perUser
  }

  ghost predicate Fits(history: seq<Admission>, l: Limits, length: real, a: real) {
    Within(Between(history, a, a + length), l)
  }

  /** No half-open window (a, a + length] holds more than the limits allow. */
  ghost predicate Bounded(history: seq<Admission>, l: Limits, length: real) {
    forall a: real :: Fits(history, l, length, a)
  }

  lemma {:induction false} SinceSince(history: seq<Admission>, a: real, b: real)
    requires a <= b
    ensures Since(Since(history, a), b) == Since(history, b)
  {
    if history != [] {
      var n := |history| - 1;
      SinceSince(history[..n], a, b);
      var front := Since(history[..n], a);
      if a < history[n].at {
        assert Since(history, a)[..|front|] == front;
      } else {
        assert Since(history, a) == front;
      }
    }
  }

  lemma {:induction false} FewerBetween(history: seq<Admission>, after: real, a: real, b: real, u: User)
    requires after <= a
    ensures |Between(history, a, b)| <= |Since(history, after)|
    ensures |Of(Between(history, a, b), u)| <= |Of(Since(history, after), u)|
  {
    if history != [] {
      var n := |history| - 1;
      FewerBetween(history[..n], after, a, b, u);
      OfAppend(Since(history[..n], after), history[n], u);
      OfAppend(Between(history[..n], a, b), history[n], u);
    }
  }

  lemma OfAppend(history: seq<Admission>, x: Admission, u: User)
    ensures Of(history + [x], u) == if x.user == u then Of(history, u) + [x.at] else Of(history, u)
    ensures Times(history + [x]) == Times(history) + [x.at]
  {
    assert (history + [x])[..|history|] == history;
  }

  lemma SinceAppend(history: seq<Admission>, x: Admission, after: real)
    ensures Since(history + [x], after) == if after < x.at then Since(history, after) + [x] else Since(history, after)
  {
    assert (history + [x])[..|history|] == history;
  }

  lemma BetweenAppend(history: seq<Admission>, x: Admission, after: real, until: real)
    ensures Between(history + [x], after, until)
         == if after < x.at <= until then Between(history, after, until) + [x] else Between(history, after, until)
  {
    assert (history + [x])[..|history|] == history;
  }

  lemma OneMoreFits(seen: seq<Admission>, l: Limits, x: Admission)
    requires Within(seen, l) && Allows(seen, l, x.user)
    ensures Within(seen + [x], l)
  {
    forall v: User
      ensures |Of(seen + [x], v)| <= l.perUser
    {
      OfAppend(seen, x, v);
    }
  }

  lemma AllowedFits(history: seq<Admission>, l: Limits, length: real, x: Admission, after: real, a: real)
    requires Fits(history, l, length, a) && after <= x.at - length && Allows(Since(history, after), l, x.user)
    ensures Fits(history + [x], l, length, a)
  {
    hide Since, Between, Of;
    BetweenAppend(history, x, a, a + length);
    if a < x.at <= a + length {
      FewerBetween(history, after, a, a + length, x.user);
      OneMoreFits(Between(history, a, a + length), l, x);
    }
  }

  /** An admission decided on all that came later than `after` keeps the windows that start no earlier. */
  lemma AllowedKeepsBounded(history: seq<Admission>, l: Limits, length: real, x: Admission, after: real)
    requires Bounded(history, l, length) && after <= x.at - length && Allows(Since(history, after), l, x.user)
    ensures Bounded(history + [x], l, length)
  {
    forall a: real
      ensures Fits(history + [x], l, length, a)
    {
      AllowedFits(history, l, length, x, after, a);
    }
  }

  /** What the reference admits keeps every window within the limits. */
  lemma AdmittedKeepsBounded(history: seq<Admission>, l: Limits, u: User, now: real)
    requires Bounded(history, l, l.window) && Admits(history, l, u, now)
    ensures Bounded(history + [Admission(now, u)], l, l.window)
  {
    AllowedKeepsBounded(history, l, l.window, Admission(now, u), now - l.window);
  }

  /** What the reference has admitted after a sequence of requests. */
  function Replay(requests: seq<Admission>, l: Limits): seq<Admission> {
    if requests == [] then []
    else
      var n := |requests| - 1;
      var history := Replay(requests[..n], l);
      if Admits(history, l, requests[n].user, requests[n].at) then history + [requests[n]] else history
  }

  /** Over every run, in whatever order the clock was read, at most `perUser` and `overall` admissions fall into
      any window. */
  lemma {:induction false} ReplayBounded(requests: seq<Admission>, l: Limits)
    ensures Bounded(Replay(requests, l), l, l.window)
  {
    if requests != [] {
      var n := |requests| - 1;
      ReplayBounded(requests[..n], l);
      if Admits(Replay(requests[..n], l), l, requests[n].user, requests[n].at) {
        AdmittedKeepsBounded(Replay(requests[..n], l), l, requests[n].user, requests[n].at);
      }
    }
  }

  // ----- Pruned lists -----

  /** What a limiter still holds, and everything it has admitted. */
  datatype Lists = Lists(kept: seq<Admission>, passed: seq<Admission>)

  const START := Lists([], [])

  /** One attempt with the lock: it forgets what its own clock reading puts outside the window, and is decided on
      the rest. */
  function Attempted(s: Lists, l: Limits, x: Admission): Lists {
    var recent := Since(s.kept, x.at - l.window);
    if Allows(recent, l, x.user) then Lists(recent + [x], s.passed + [x]) else Lists(recent, s.passed)
  }

  /** The lists after these attempts, in the order they got the lock. */
  function After(log: seq<Admission>, l: Limits): Lists {
    if log == [] then START
    else Attempted(After(log[..|log| - 1], l), l, log[|log| - 1])
  }

  lemma AfterNothing(l: Limits)
    ensures After([], l) == START
  {
  }

  lemma AfterAppend(log: seq<Admission>, l: Limits, x: Admission)
    ensures After(log + [x], l) == Attempted(After(log, l), l, x)
  {
    assert (log + [x])[..|log|] == log;
  }

  /** Nothing later than `after` has been forgotten. */
  predicate Recalls(s: Lists, after: real) {
    Since(s.kept, after) == Since(s.passed, after)
  }

  /** Nothing later than `after` was ever outside the window of an attempt. */
  predicate Covers(log: seq<Admission>, l: Limits, after: real) {
    forall i :: 0 <= i < |log| ==> log[i].at - l.window <= after
  }

  lemma AttemptRecalls(s: Lists, l: Limits, x: Admission, after: real)
    requires Recalls(s, after) && x.at - l.window <= after
    ensures Recalls(Attempted(s, l, x), after)
  {
    hide Since, Of;
    SinceSince(s.kept, x.at - l.window, after);
    SinceAppend(Since(s.kept, x.at - l.window), x, after);
    SinceAppend(s.passed, x, after);
  }

  lemma {:induction false} NothingForgotten(log: seq<Admission>, l: Limits, after: real)
    requires Covers(log, l, after)
    ensures Recalls(After(log, l), after)
  {
    if log != [] {
      var front, x := log[..|log| - 1], log[|log| - 1];
      NothingForgotten(front, l, after);
      AttemptRecalls(After(front, l), l, x, after);
    }
  }

  /** No clock reading is more than `lag` behind one that got the lock before it. */
  ghost predicate Lagging(log: seq<Admission>, lag: real) {
    forall i, j :: 0 <= i < j < |log| ==> log[i].at - lag <= log[j].at
  }

  lemma AttemptAgrees(s: Lists, l: Limits, x: Admission)
    requires Recalls(s, x.at - l.window)
    ensures Attempted(s, l, x).passed == if Admits(s.passed, l, x.user, x.at) then s.passed + [x] else s.passed
  {
  }

  /** Read in order, the pruned lists decide as the whole history. */
  lemma {:induction false} InOrderAgrees(log: seq<Admission>, l: Limits)
    requires Lagging(log, 0.0)
    ensures After(log, l).passed == Replay(log, l)
  {
    if log != [] {
      var front, x := log[..|log| - 1], log[|log| - 1];
      InOrderAgrees(front, l);
      NothingForgotten(front, l, x.at - l.window);
      AttemptAgrees(After(front, l), l, x);
    }
  }

  lemma {:induction false} FewerSince(history: seq<Admission>, after: real, u: User)
    ensures |Since(history, after)| <= |history| && |Of(Since(history, after), u)| <= |Of(history, u)|
  {
    if history != [] {
      var n := |history| - 1;
      FewerSince(history[..n], after, u);
      OfAppend(Since(history[..n], after), history[n], u);
    }
  }

  lemma AttemptKeepsBounded(s: Lists, l: Limits, x: Admission, lag: real, length: real)
    requires Bounded(s.passed, l, length) && 0.0 <= lag && length <= l.window - lag
    requires Recalls(s, x.at + lag - l.window)
    ensures Bounded(Attempted(s, l, x).passed, l, length)
  {
    var after := x.at + lag - l.window;
    var recent := Since(s.kept, x.at - l.window);
    if Allows(recent, l, x.user) {
      SinceSince(s.kept, x.at - l.window, after);
      FewerSince(recent, after, x.user);
      AllowedKeepsBounded(s.passed, l, length, x, after);
    }
  }

  /** A lag shortens the windows that stay bounded by as much. */
  lemma {:induction false} LagKeepsBounded(log: seq<Admission>, l: Limits, lag: real, length: real)
    requires 0.0 <= lag && Lagging(log, lag) && length <= l.window - lag
    ensures Bounded(After(log, l).passed, l, length)
  {
    if log != [] {
      var front, x := log[..|log| - 1], log[|log| - 1];
      LagKeepsBounded(front, l, lag, length);
      NothingForgotten(front, l, x.at + lag - l.window);
      AttemptKeepsBounded(After(front, l), l, x, lag, length);
    }
  }

  const FIRST: User := 0
  const SECOND: User := 1

  function Burst(n: nat): seq<Admission> {
    if n == 0 then [] else Burst(n - 1) + [Admission(0.0, FIRST)]
  }

  lemma {:induction false} BurstCounts(n: nat)
    ensures |Burst(n)| == |Of(Burst(n), FIRST)| == n && Of(Burst(n), SECOND) == []
  {
    if n > 0 {
      BurstCounts(n - 1);
      OfAppend(Burst(n - 1), Admission(0.0, FIRST), FIRST);
      OfAppend(Burst(n - 1), Admission(0.0, FIRST), SECOND);
    }
  }

  lemma {:induction false} BurstIn(n: nat, a: real, until: real)
    requires a < until
    ensures Since(Burst(n), a) == if a < 0.0 then Burst(n) else []
    ensures a < 0.0 <= until ==> Between(Burst(n), a, until) == Burst(n)
  {
    if n > 0 {
      BurstIn(n - 1, a, until);
      SinceAppend(Burst(n - 1), Admission(0.0, FIRST), a);
      BetweenAppend(Burst(n - 1), Admission(0.0, FIRST), a, until);
    }
  }

  lemma AttemptGrows(burst: seq<Admission>, l: Limits, x: Admission)
    requires Since(burst, x.at - l.window) == burst && Allows(burst, l, x.user)
    ensures Attempted(Lists(burst, burst), l, x) == Lists(burst + [x], burst + [x])
  {
  }

  lemma BurstIsRecalled(n: nat, l: Limits)
    requires 0.0 < l.window && n < l.perUser < l.overall
    ensures Since(Burst(n), 0.0 - l.window) == Burst(n) && Allows(Burst(n), l, FIRST)
  {
    hide Since, Of, Burst;
    BurstIn(n, -l.window, 0.0);
    BurstCounts(n);
  }

  lemma {:induction false} BurstPasses(n: nat, l: Limits)
    requires 0.0 < l.window && n <= l.perUser < l.overall
    ensures After(Burst(n), l) == Lists(Burst(n), Burst(n))
  {
    hide After, Attempted, Allows, Since;
    AfterNothing(l);
    if n > 0 {
      BurstPasses(n - 1, l);
      BurstIsRecalled(n - 1, l);
      AttemptGrows(Burst(n - 1), l, Admission(0.0, FIRST));
      AfterAppend(Burst(n - 1), l, Admission(0.0, FIRST));
    }
  }

  /** One user's burst, another user's attempt a window later, and one more of the first user's, read `lag` before
      that one. */
  function LateLog(l: Limits, lag: real): seq<Admission> {
    Burst(l.perUser) + [Admission(l.window, SECOND)] + [Admission(l.window - lag, FIRST)]
  }

  lemma Alone(x: Admission, u: User, after: real)
    ensures Of([x], u) == if x.user == u then [x.at] else []
    ensures Since([x], after) == if after < x.at then [x] else []
  {
    assert [] + [x] == [x];
    OfAppend([], x, u);
    SinceAppend([], x, after);
  }

  /** A window later the burst is forgotten. */
  lemma OtherAttempt(burst: seq<Admission>, l: Limits)
    requires 0 < l.perUser && 0 < l.overall && Since(burst, 0.0) == []
    ensures var other := Admission(l.window, SECOND);
            Attempted(Lists(burst, burst), l, other) == Lists([other], burst + [other])
  {
    assert Allows([], l, SECOND);
    assert [] + [Admission(l.window, SECOND)] == [Admission(l.window, SECOND)];
  }

  lemma LateAttempt(passed: seq<Admission>, l: Limits, lag: real)
    requires 0.0 < l.window && 0.0 <= lag && 0 < l.perUser && 1 < l.overall
    ensures var other, late := Admission(l.window, SECOND), Admission(l.window - lag, FIRST);
            Attempted(Lists([other], passed), l, late).passed == passed + [late]
  {
    hide Since, Of;
    Alone(Admission(l.window, SECOND), FIRST, -lag);
    assert Allows([Admission(l.window, SECOND)], l, FIRST);
  }

  lemma LatePasses(l: Limits, lag: real)
    requires 0.0 < l.window && 0.0 <= lag <= l.window && 0 < l.perUser < l.overall
    ensures After(LateLog(l, lag), l).passed == LateLog(l, lag)
  {
    var burst := Burst(l.perUser);
    hide Attempted, Since, Of, After, Burst;
    var other, late := Admission(l.window, SECOND), Admission(l.window - lag, FIRST);
    BurstPasses(l.perUser, l);
    BurstIn(l.perUser, 0.0, 1.0);
    OtherAttempt(burst, l);
    LateAttempt(burst + [other], l, lag);
    AfterAppend(burst, l, other);
    AfterAppend(burst + [other], l, late);
  }

  lemma OneTooMany(burst: seq<Admission>, other: Admission, late: Admission, a: real, until: real)
    requires other.user != late.user && a < late.at <= until && Between(burst, a, until) == burst
    ensures |Of(Between(burst + [other] + [late], a, until), late.user)| == |Of(burst, late.user)| + 1
  {
    var seen := Between(burst + [other], a, until);
    BetweenAppend(burst, other, a, until);
    OfAppend(burst, other, late.user);
    BetweenAppend(burst + [other], late, a, until);
    OfAppend(seen, late, late.user);
  }

  lemma LateOverflows(l: Limits, lag: real, length: real)
    requires 0.0 < l.window && 0.0 <= lag <= l.window && 0 < l.perUser && l.window - lag < length
    ensures !Bounded(LateLog(l, lag), l, length)
  {
    hide Since, Between, Of, Burst;
    var until := l.window - lag;
    var a := until - length;
    BurstIn(l.perUser, a, until);
    BurstCounts(l.perUser);
    OneTooMany(Burst(l.perUser), Admission(l.window, SECOND), Admission(until, FIRST), a, until);
    assert !Fits(LateLog(l, lag), l, length, a);
  }

  lemma {:induction false} BurstIsAtZero(n: nat)
    ensures forall i :: 0 <= i < |Burst(n)| ==> Burst(n)[i].at == 0.0
  {
    if n > 0 { BurstIsAtZero(n - 1); }
  }

  lemma LateLogLags(l: Limits, lag: real)
    requires 0.0 <= lag <= l.window
    ensures Lagging(LateLog(l, lag), lag)
  {
    hide Burst;
    BurstIsAtZero(l.perUser);
  }

  /** Exactly which windows stay within the limits when clock readings reach the lock late: those shorter than the
      limiter's own by the lag. */
  lemma LagExact(l: Limits, lag: real, length: real)
    requires 0.0 < l.window && 0.0 <= lag <= l.window && 0 < l.perUser < l.overall
    ensures (forall log :: Lagging(log, lag) ==> Bounded(After(log, l).passed, l, length)) <==> length <= l.window - lag
  {
    hide Bounded, Lagging, After, LateLog;
    if length <= l.window - lag {
      forall log | Lagging(log, lag)
        ensures Bounded(After(log, l).passed, l, length)
      {
        LagKeepsBounded(log, l, lag, length);
      }
    } else {
      LateLogLags(l, lag);
      LatePasses(l, lag);
      LateOverflows(l, lag, length);
    }
  }
}

module RateLimiters {
  import opened SlidingWindows

  const CLASSIFICATIONS := Limits(60.0, 12, 120)
  const REGISTRATIONS := Limits(3600.0, 3, 120)

  /** What an attempt is decided on. */
  function Recalled(log: seq<Admission>, l: Limits, now: real): seq<Admission> {
    Since(After(log, l).kept, now - l.window)
  }

  /** The verdict is that of the recalled admissions, and of the whole history if the reading is the latest. */
  ghost predicate Decides(log: seq<Admission>, l: Limits, x: Admission, allowed: bool) {
    && (allowed <==> Allows(Recalled(log, l, x.at), l, x.user))
    && After(log + [x], l).passed == (if allowed then After(log, l).passed + [x] else After(log, l).passed)
    && ((forall i :: 0 <= i < |log| ==> log[i].at <= x.at) ==>
        (allowed <==> Admits(After(log, l).passed, l, x.user, x.at)))
  }

  lemma AttemptDecides(log: seq<Admission>, l: Limits, x: Admission)
    ensures var recent := Recalled(log, l, x.at);
            && Decides(log, l, x, Allows(recent, l, x.user))
            && After(log + [x], l).kept == if Allows(recent, l, x.user) then recent + [x] else recent
  {
    hide After, Since, Of;
    AfterAppend(log, l, x);
    if forall i :: 0 <= i < |log| ==> log[i].at <= x.at { NothingForgotten(log, l, x.at - l.window); }
  }

  /** The classifier's limiter: one list of (time, user), pruned at every attempt. */
  class ClassificationLimiter {
    var attempts: seq<Admission>
    ghost var log: seq<Admission>

    ghost predicate Valid()
      reads this
    {
      attempts == After(log, CLASSIFICATIONS).kept
    }

    constructor ()
      ensures Valid() && log == []
    {
      attempts, log := [], [];
    }

    /** The clock is read before the lock is taken: `now` may be earlier than the last reading. */
    method Attempt(user: User, now: real) returns (allowed: bool)
      requires Valid()
      modifies this
      ensures Valid() && log == old(log) + [Admission(now, user)]
      ensures Decides(old(log), CLASSIFICATIONS, Admission(now, user), allowed)
    {
      hide After, Since, Of;
      ghost var x := Admission(now, user);
      AttemptDecides(log, CLASSIFICATIONS, x);
      attempts := Since(attempts, now - CLASSIFICATIONS.window);
      allowed := |attempts| < CLASSIFICATIONS.overall && |Of(attempts, user)| < CLASSIFICATIONS.perUser;
      if allowed {
        attempts := attempts + [Admission(now, user)];
      }
      log := log + [x];
    }
  }

  datatype Verdict = Admitted | TooManyForUser | Busy

  function Later(times: seq<real>, after: real): seq<real> {
    if times == [] then []
    else
      var n := |times| - 1;
      if after < times[n] then Later(times[..n], after) + [times[n]] else Later(times[..n], after)
  }

  lemma {:induction false} LaterOf(history: seq<Admission>, after: real, u: User)
    ensures Later(Of(history, u), after) == Of(Since(history, after), u)
  {
    if history != [] {
      var n := |history| - 1;
      LaterOf(history[..n], after, u);
      OfAppend(Since(history[..n], after), history[n], u);
      LaterAppend(Of(history[..n], u), history[n].at, after);
    }
  }

  lemma {:induction false} LaterTimes(history: seq<Admission>, after: real)
    ensures Later(Times(history), after) == Times(Since(history, after))
  {
    if history != [] {
      var n := |history| - 1;
      LaterTimes(history[..n], after);
      OfAppend(Since(history[..n], after), history[n], 0);
      LaterAppend(Times(history[..n]), history[n].at, after);
    }
  }

  lemma LaterAppend(times: seq<real>, t: real, after: real)
    ensures Later(times + [t], after) == if after < t then Later(times, after) + [t] else Later(times, after)
  {
    assert (times + [t])[..|times|] == times;
  }

  /** The registration limiter: a global list and one list a user, both pruned at every attempt. */
  class RegistrationLimiter {
    var byUser: map<User, seq<real>>
    var overall: seq<real>
    ghost var log: seq<Admission>

    ghost predicate Valid()
      reads this
    {
      Holds(After(log, REGISTRATIONS).kept)
    }

    /** Both structures hold the same recent admissions; a user without any has no entry. */
    ghost predicate Holds(recent: seq<Admission>)
      reads this
    {
      && overall == Times(recent)
      && forall u: User :: if Of(recent, u) == [] then u !in byUser else u in byUser && byUser[u] == Of(recent, u)
    }

    constructor ()
      ensures Valid() && log == []
    {
      byUser, overall, log := map[], [], [];
    }

    method Prune(cutoff: real, ghost recent: seq<Admission>)
      requires Holds(recent)
      modifies this`byUser, this`overall
      ensures Holds(Since(recent, cutoff))
    {
      LaterTimes(recent, cutoff);
      overall := Later(overall, cutoff);
      ghost var before := byUser;
      var todo := byUser.Keys;
      while todo != {}
        invariant todo <= before.Keys && overall == Times(Since(recent, cutoff))
        invariant forall u :: u in todo ==> u in byUser && byUser[u] == before[u]
        invariant forall u :: u in before && u !in todo ==>
                    if Later(before[u], cutoff) == [] then u !in byUser
                        else u in byUser && byUser[u] == Later(before[u], cutoff)
        invariant byUser.Keys <= before.Keys
        decreases todo
      {
        var tracked :| tracked in todo;
        var recently := Later(byUser[tracked], cutoff);
        byUser := if recently != [] then byUser[tracked := recently] else byUser - {tracked};
        todo := todo - {tracked};
      }
      forall u: User
        ensures var times := Of(Since(recent, cutoff), u);
                if times == [] then u !in byUser else u in byUser && byUser[u] == times
      {
        LaterOf(recent, cutoff, u);
      }
    }

    method Record(user: User, now: real, ghost recent: seq<Admission>)
      requires Holds(recent)
      modifies this`byUser, this`overall
      ensures Holds(recent + [Admission(now, user)])
    {
      var mine := if user in byUser then byUser[user] else [];
      byUser := byUser[user := mine + [now]];
      overall := overall + [now];
      forall u: User
        ensures Times(recent + [Admission(now, user)]) == Times(recent) + [now]
        ensures Of(recent + [Admission(now, user)], u) == if u == user then Of(recent, u) + [now] else Of(recent, u)
      {
        OfAppend(recent, Admission(now, user), u);
      }
    }

    /** The global list holds, with their multiplicities, exactly the times of the per-user lists. */
    lemma GlobalIsAllLists(users: seq<User>)
      requires Valid() && forall u :: u in byUser <==> u in users
      requires forall i, j :: 0 <= i < j < |users| ==> users[i] != users[j]
      ensures multiset(overall) == AllLists(byUser, users)
    {
      var recent := After(log, REGISTRATIONS).kept;
      forall x | x in recent
        ensures x.user in users
      {
        MemberHasTimes(recent, x);
      }
      GlobalIsUnion(recent, users);
      UnionIsAllLists(recent, byUser, users);
    }

    lemma Counts(user: User, recent: seq<Admission>)
      requires Holds(recent)
      ensures |overall| == |recent|
      ensures |Of(recent, user)| == if user in byUser then |byUser[user]| else 0
    {
      LengthOfTimes(recent);
    }

    method Attempt(user: User, now: real) returns (verdict: Verdict)
      requires Valid()
      modifies this
      ensures Valid() && log == old(log) + [Admission(now, user)]
      ensures Decides(old(log), REGISTRATIONS, Admission(now, user), verdict.Admitted?)
      ensures verdict.TooManyForUser? <==> |Of(Recalled(old(log), REGISTRATIONS, now), user)| >= REGISTRATIONS.perUser
    {
      hide After, Since, Of;
      ghost var recent := Recalled(log, REGISTRATIONS, now);
      AttemptDecides(log, REGISTRATIONS, Admission(now, user));
      Prune(now - REGISTRATIONS.window, After(log, REGISTRATIONS).kept);
      Counts(user, recent);
      log := log + [Admission(now, user)];
      if user in byUser && |byUser[user]| >= REGISTRATIONS.perUser {
        return TooManyForUser;
      }
      if |overall| >= REGISTRATIONS.overall {
        return Busy;
      }
      Record(user, now, recent);
      return Admitted;
    }
  }

  lemma {:induction false} LengthOfTimes(history: seq<Admission>)
    ensures |Times(history)| == |history|
  {
    if history != [] { LengthOfTimes(history[..|history| - 1]); }
  }

  /** The multiset union of the users' lists. */
  ghost function Union(history: seq<Admission>, users: seq<User>): multiset<real> {
    if users == [] then multiset{} else multiset(Of(history, users[0])) + Union(history, users[1..])
  }

  lemma {:induction false} UnionAppend(history: seq<Admission>, x: Admission, users: seq<User>)
    requires forall i, j :: 0 <= i < j < |users| ==> users[i] != users[j]
    ensures x.user in users ==> Union(history + [x], users) == Union(history, users) + multiset{x.at}
    ensures x.user !in users ==> Union(history + [x], users) == Union(history, users)
  {
    if users != [] {
      var rest := users[1..];
      UnionAppend(history, x, rest);
      OfAppend(history, x, users[0]);
      if x.user == users[0] {
        assert x.user !in rest;
      } else {
        assert x.user in users <==> x.user in rest;
      }
    }
  }

  /** The global list is the multiset union of the per-user lists. */
  lemma {:induction false} GlobalIsUnion(history: seq<Admission>, users: seq<User>)
    requires forall i, j :: 0 <= i < j < |users| ==> users[i] != users[j]
    requires forall x :: x in history ==> x.user in users
    ensures multiset(Times(history)) == Union(history, users)
  {
    if history == [] {
      EmptyUnion(users);
    } else {
      var n := |history| - 1;
      assert history == history[..n] + [history[n]];
      GlobalIsUnion(history[..n], users);
      UnionAppend(history[..n], history[n], users);
    }
  }

  lemma {:induction false} EmptyUnion(users: seq<User>)
    ensures Union([], users) == multiset{}
  {
    if users != [] { EmptyUnion(users[1..]); }
  }

  /** The per-user lists, added up. */
  ghost function AllLists(lists: map<User, seq<real>>, users: seq<User>): multiset<real>
    requires forall u :: u in users ==> u in lists
  {
    if users == [] then multiset{} else multiset(lists[users[0]]) + AllLists(lists, users[1..])
  }

  lemma {:induction false} UnionIsAllLists(history: seq<Admission>, lists: map<User, seq<real>>, users: seq<User>)
    requires forall u :: u in users ==> u in lists && lists[u] == Of(history, u)
    ensures Union(history, users) == AllLists(lists, users)
  {
    if users != [] { UnionIsAllLists(history, lists, users[1..]); }
  }

  lemma {:induction false} MemberHasTimes(history: seq<Admission>, x: Admission)
    requires x in history
    ensures Of(history, x.user) != []
  {
    var n := |history| - 1;
    if history[n] != x {
      assert x in history[..n];
      MemberHasTimes(history[..n], x);
    }
  }
}

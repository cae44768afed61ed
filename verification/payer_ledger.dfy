/** Counting external payers: classification of transfers, totals a merchant and overall, and the
    combination of chains. Amounts are exact until a report rounds them to six decimals. */
module PayerLedger {
  import opened Options

  type Address = string

  datatype Status = Unattributed | Unavailable

  /** `at` is in seconds since the epoch. */
  datatype Transfer =
    | Payment(payer: Address, paid: real, at: Option<int>)
    | Unresolved(status: Status, received: Option<real>, at: Option<int>)

  /** `since` is a day number; `atomic` the amounts, in millionths, a filtered report keeps. */
  datatype Policy = Policy(exclude: set<Address>, since: Option<int>, atomic: Option<set<int>>)

  datatype Kind = Dropped | NoPayer | NoRecord | ZeroValue | Own | Counted

  function Day(at: int): int { at / 86400 }

  function AmountOf(t: Transfer): Option<real> {
    if t.Payment? then Some(t.paid) else t.received
  }

  predicate KeptAmount(amount: Option<real>, atomic: Option<set<int>>) {
    atomic.None? || amount.None? || exists n :: n in atomic.value && n as real == amount.value * 1000000.0
  }

  function KindOf(t: Transfer, p: Policy): Kind {
    if p.since.Some? && t.at.Some? && Day(t.at.value) < p.since.value then Dropped
    else if !KeptAmount(AmountOf(t), p.atomic) then Dropped
    else if t.Unresolved? then (if t.status == Unattributed then NoPayer else NoRecord)
    else if t.paid == 0.0 then ZeroValue
    else if t.payer in p.exclude then Own
    else Counted
  }

  datatype Tally = Tally(noPayer: nat, noRecord: nat, zero: nat, own: nat, payments: nat, amount: real,
                         payers: set<Address>, earliest: Option<int>, latest: Option<int>)

  const NOTHING := Tally(0, 0, 0, 0, 0, 0.0, {}, None, None)

  function Earlier(a: Option<int>, b: Option<int>): Option<int> {
    if a.None? then b else if b.None? || a.value <= b.value then a else b
  }

  function Later(a: Option<int>, b: Option<int>): Option<int> {
    if a.None? then b else if b.None? || b.value <= a.value then a else b
  }

  function Merge(a: Tally, b: Tally): Tally {
    Tally(a.noPayer + b.noPayer, a.noRecord + b.noRecord, a.zero + b.zero, a.own + b.own, a.payments + b.payments,
          a.amount + b.amount, a.payers + b.payers, Earlier(a.earliest, b.earliest), Later(a.latest, b.latest))
  }

  /** The contribution of one transfer: at most one of the counters. */
  function Single(t: Transfer, p: Policy): Tally {
    match KindOf(t, p)
    case Dropped => NOTHING
    case NoPayer => NOTHING.(noPayer := 1)
    case NoRecord => NOTHING.(noRecord := 1)
    case ZeroValue => NOTHING.(zero := 1)
    case Own => NOTHING.(own := 1)
    case Counted => Tally(0, 0, 0, 0, 1, t.paid, {t.payer}, t.at, t.at)
  }

  function MergeAll(tallies: seq<Tally>): Tally {
    if tallies == [] then NOTHING else Merge(MergeAll(tallies[..|tallies| - 1]), tallies[|tallies| - 1])
  }

  function Singles(ts: seq<Transfer>, p: Policy): (r: seq<Tally>)
    ensures |r| == |ts|
  {
    seq(|ts|, i requires 0 <= i < |ts| => Single(ts[i], p))
  }

  function TallyOf(ts: seq<Transfer>, p: Policy): Tally {
    MergeAll(Singles(ts, p))
  }

  function Tallies(books: seq<(Address, seq<Transfer>)>, p: Policy): (r: seq<Tally>)
    ensures |r| == |books|
  {
    seq(|books|, i requires 0 <= i < |books| => TallyOf(books[i].1, p))
  }

  ghost predicate DistinctMerchants(books: seq<(Address, seq<Transfer>)>) {
    forall i, j :: 0 <= i < j < |books| ==> books[i].0 != books[j].0
  }

  /** Every transfer is added to its merchant's total and to the overall one. */
  method Aggregate(books: seq<(Address, seq<Transfer>)>, p: Policy)
    returns (overall: Tally, perMerchant: map<Address, Tally>)
    requires DistinctMerchants(books)
    ensures overall == MergeAll(Tallies(books, p))
    ensures perMerchant.Keys == set i | 0 <= i < |books| :: books[i].0
    ensures forall i :: 0 <= i < |books| ==> perMerchant[books[i].0] == TallyOf(books[i].1, p)
  {
    overall, perMerchant := NOTHING, map[];
    var i := 0;
    while i < |books|
      invariant 0 <= i <= |books|
      invariant overall == MergeAll(Tallies(books, p)[..i])
      invariant perMerchant.Keys == set k | 0 <= k < i :: books[k].0
      invariant forall k :: 0 <= k < i ==> perMerchant[books[k].0] == TallyOf(books[k].1, p)
    {
      var mine;
      overall, mine := AddMerchant(overall, books[i].1, p);
      perMerchant := perMerchant[books[i].0 := mine];
      assert Tallies(books, p)[..i + 1][..i] == Tallies(books, p)[..i];
      i := i + 1;
    }
    assert Tallies(books, p)[..|books|] == Tallies(books, p);
  }

  /** The inner loop: one merchant's transfers. */
  method AddMerchant(before: Tally, ts: seq<Transfer>, p: Policy) returns (overall: Tally, mine: Tally)
    ensures mine == TallyOf(ts, p) && overall == Merge(before, mine)
  {
    overall, mine := before, NOTHING;
    MergeUnit(before);
    var k := 0;
    while k < |ts|
      invariant 0 <= k <= |ts| && mine == MergeAll(Singles(ts, p)[..k])
      invariant overall == Merge(before, mine)
    {
      assert Singles(ts, p)[..k + 1][..k] == Singles(ts, p)[..k];
      MergeAssociative(before, mine, Singles(ts, p)[k]);
      mine := AddTransfer(mine, ts[k], p);
      overall := AddTransfer(overall, ts[k], p);
      k := k + 1;
    }
    assert Singles(ts, p)[..|ts|] == Singles(ts, p);
  }

  /** One pass through the body of the inner loop. */
  method AddTransfer(total: Tally, t: Transfer, p: Policy) returns (r: Tally)
    ensures r == Merge(total, Single(t, p))
  {
    r := total;
    if p.since.Some? && t.at.Some? && Day(t.at.value) < p.since.value {
      return;
    }
    if !KeptAmount(AmountOf(t), p.atomic) {
      return;
    }
    if t.Unresolved? {
      if t.status == Unattributed {
        r := r.(noPayer := r.noPayer + 1);
      } else {
        r := r.(noRecord := r.noRecord + 1);
      }
      return;
    }
    if t.paid == 0.0 {
      r := r.(zero := r.zero + 1);
      return;
    }
    if t.payer in p.exclude {
      r := r.(own := r.own + 1);
      return;
    }
    r := r.(payers := r.payers + {t.payer}, payments := r.payments + 1, amount := r.amount + t.paid);
    if t.at.Some? {
      r := r.(earliest := if r.earliest.None? || t.at.value < r.earliest.value then t.at else r.earliest,
              latest := if r.latest.None? || r.latest.value < t.at.value then t.at else r.latest);
    }
  }

  lemma MergeUnit(a: Tally)
    ensures Merge(a, NOTHING) == a == Merge(NOTHING, a)
  {
  }

  lemma MergeAssociative(a: Tally, b: Tally, c: Tally)
    ensures Merge(Merge(a, b), c) == Merge(a, Merge(b, c))
  {
  }

  // ----- Every transfer is accounted for once -----

  function Count(ts: seq<Transfer>, p: Policy, kind: Kind): nat {
    if ts == [] then 0
    else Count(ts[..|ts| - 1], p, kind) + if KindOf(ts[|ts| - 1], p) == kind then 1 else 0
  }

  lemma TallyLast(ts: seq<Transfer>, p: Policy)
    requires ts != []
    ensures TallyOf(ts, p) == Merge(TallyOf(ts[..|ts| - 1], p), Single(ts[|ts| - 1], p))
  {
    assert Singles(ts, p)[..|ts| - 1] == Singles(ts[..|ts| - 1], p);
  }

  /** The counters are the numbers of transfers of each kind, and the kinds partition the transfers. */
  lemma {:induction false} Conservation(ts: seq<Transfer>, p: Policy)
    ensures var tally := TallyOf(ts, p);
            && tally.noPayer == Count(ts, p, NoPayer) && tally.noRecord == Count(ts, p, NoRecord)
            && tally.zero == Count(ts, p, ZeroValue) && tally.own == Count(ts, p, Own)
            && tally.payments == Count(ts, p, Counted)
            && Count(ts, p, Dropped) + tally.noPayer + tally.noRecord + tally.zero + tally.own + tally.payments == |ts|
  {
    if ts != [] {
      TallyLast(ts, p);
      Conservation(ts[..|ts| - 1], p);
    }
  }

  predicate PaidBy(t: Transfer, p: Policy, a: Address) {
    KindOf(t, p) == Counted && t.payer == a
  }

  ghost predicate SomePaidBy(ts: seq<Transfer>, p: Policy, a: Address) {
    exists i :: 0 <= i < |ts| && PaidBy(ts[i], p, a)
  }

  lemma SomePaidByLast(ts: seq<Transfer>, p: Policy, a: Address)
    requires ts != []
    ensures SomePaidBy(ts, p, a) <==> SomePaidBy(ts[..|ts| - 1], p, a) || PaidBy(ts[|ts| - 1], p, a)
  {
    var front := ts[..|ts| - 1];
    if SomePaidBy(front, p, a) {
      var i :| 0 <= i < |front| && PaidBy(front[i], p, a);
      assert ts[i] == front[i];
    }
    if SomePaidBy(ts, p, a) {
      var i :| 0 <= i < |ts| && PaidBy(ts[i], p, a);
      assert i < |front| ==> ts[i] == front[i];
    }
  }

  /** The payers are exactly those of counted payments. */
  lemma {:induction false} PayersExact(ts: seq<Transfer>, p: Policy, a: Address)
    ensures a in TallyOf(ts, p).payers <==> SomePaidBy(ts, p, a)
  {
    if ts != [] {
      PayersExact(ts[..|ts| - 1], p, a);
      SomePaidByLast(ts, p, a);
      TallyLast(ts, p);
      SinglePayer(ts[|ts| - 1], p, a);
    }
  }

  lemma SinglePayer(t: Transfer, p: Policy, a: Address)
    ensures a in Single(t, p).payers <==> PaidBy(t, p, a)
  {
  }

  // ----- The order of transfers does not matter -----

  lemma {:induction false} MergeAllConcat(a: seq<Tally>, b: seq<Tally>)
    ensures MergeAll(a + b) == Merge(MergeAll(a), MergeAll(b))
  {
    if b == [] {
      assert a + b == a;
      MergeUnit(MergeAll(a));
    } else {
      var n := |b| - 1;
      MergeAllConcat(a, b[..n]);
      assert (a + b)[..|a + b| - 1] == a + b[..n];
      MergeAssociative(MergeAll(a), MergeAll(b[..n]), b[n]);
    }
  }

  lemma SinglesConcat(a: seq<Transfer>, b: seq<Transfer>, p: Policy)
    ensures TallyOf(a + b, p) == Merge(TallyOf(a, p), TallyOf(b, p))
  {
    assert Singles(a + b, p) == Singles(a, p) + Singles(b, p);
    MergeAllConcat(Singles(a, p), Singles(b, p));
  }

  lemma MergeSwap(x: Tally, y: Tally, z: Tally)
    ensures Merge(Merge(x, y), z) == Merge(Merge(x, z), y)
  {
  }

  lemma MoveToEnd(a: seq<Transfer>, b: seq<Transfer>, t: Transfer, p: Policy)
    ensures TallyOf(a + [t] + b, p) == TallyOf(a + b + [t], p)
  {
    SinglesConcat(a + [t], b, p);
    SinglesConcat(a, [t], p);
    SinglesConcat(a + b, [t], p);
    SinglesConcat(a, b, p);
    MergeSwap(TallyOf(a, p), TallyOf([t], p), TallyOf(b, p));
  }

  lemma RemoveOne<T>(a: seq<T>, before: seq<T>, after: seq<T>, t: T)
    requires multiset(a + [t]) == multiset(before + [t] + after)
    ensures multiset(a) == multiset(before + after)
  {
    assert multiset(a) == multiset(a + [t]) - multiset{t};
    assert multiset(before + after) == multiset(before + [t] + after) - multiset{t};
  }

  lemma {:induction false} OrderDoesNotMatter(a: seq<Transfer>, b: seq<Transfer>, p: Policy)
    requires multiset(a) == multiset(b)
    ensures TallyOf(a, p) == TallyOf(b, p)
    decreases |a|
  {
    if a == [] {
      assert |multiset(b)| == 0;
    } else {
      var n := |a| - 1;
      var last := a[n];
      assert last in multiset(b);
      var k :| 0 <= k < |b| && b[k] == last;
      var rest := b[..k] + b[k + 1..];
      assert a == a[..n] + [last] && b == b[..k] + [last] + b[k + 1..];
      RemoveOne(a[..n], b[..k], b[k + 1..], last);
      OrderDoesNotMatter(a[..n], rest, p);
      MoveToEnd(b[..k], b[k + 1..], last, p);
      SinglesConcat(a[..n], [last], p);
      SinglesConcat(rest, [last], p);
    }
  }

  // ----- A filtered report is part of the unfiltered one -----

  ghost predicate Within(a: Tally, b: Tally) {
    && a.noPayer <= b.noPayer && a.noRecord <= b.noRecord && a.zero <= b.zero && a.own <= b.own
    && a.payments <= b.payments && a.amount <= b.amount && a.payers <= b.payers
  }

  lemma SingleWithin(t: Transfer, p: Policy)
    requires t.Payment? ==> 0.0 <= t.paid
    ensures Within(Single(t, p), Single(t, p.(atomic := None)))
  {
  }

  lemma MergeWithin(a: Tally, b: Tally, c: Tally, d: Tally)
    requires Within(a, c) && Within(b, d)
    ensures Within(Merge(a, b), Merge(c, d))
  {
  }

  lemma {:induction false} FilteredIsWithin(ts: seq<Transfer>, p: Policy)
    requires forall i :: 0 <= i < |ts| && ts[i].Payment? ==> 0.0 <= ts[i].paid
    ensures Within(TallyOf(ts, p), TallyOf(ts, p.(atomic := None)))
  {
    if ts != [] {
      var n := |ts| - 1;
      var open := p.(atomic := None);
      FilteredIsWithin(ts[..n], p);
      TallyLast(ts, p);
      TallyLast(ts, open);
      SingleWithin(ts[n], p);
      MergeWithin(TallyOf(ts[..n], p), Single(ts[n], p), TallyOf(ts[..n], open), Single(ts[n], open));
    }
  }

  // ----- Combining chains -----

  /** Amounts are reported as text with six decimals: a number of millionths, ties to even. */
  function Micros(amount: real): (m: int)
    ensures -0.5 <= m as real - 1000000.0 * amount <= 0.5
  {
    var scaled := 1000000.0 * amount;
    var low := scaled.Floor;
    var rest := scaled - low as real;
    if rest < 0.5 || (rest == 0.5 && low % 2 == 0) then low else low + 1
  }

  datatype Report = Report(noPayer: nat, noRecord: nat, uniquePayers: nat, payments: nat, micros: int, own: nat,
                           zero: nat, from: Option<int>, to: Option<int>)

  function DayOf(at: Option<int>): Option<int> {
    if at.None? then None else Some(Day(at.value))
  }

  function ReportOf(t: Tally): Report {
    Report(t.noPayer, t.noRecord, |t.payers|, t.payments, Micros(t.amount), t.own, t.zero,
           DayOf(t.earliest), DayOf(t.latest))
  }

  function SumMicros(tallies: seq<Tally>): int {
    if tallies == [] then 0 else SumMicros(tallies[..|tallies| - 1]) + Micros(tallies[|tallies| - 1].amount)
  }

  /** Chain reports are added, amounts as each chain rounded them; the payers are summed, not compared. */
  method CombineChainReports(tallies: seq<Tally>) returns (combined: Report)
    ensures combined == ReportOf(MergeAll(tallies)).(uniquePayers := SumPayers(tallies), micros := SumMicros(tallies))
  {
    combined := ReportOf(NOTHING);
    for i := 0 to |tallies|
      invariant combined == ReportOf(MergeAll(tallies[..i]))
                              .(uniquePayers := SumPayers(tallies[..i]), micros := SumMicros(tallies[..i]))
    {
      assert tallies[..i + 1][..i] == tallies[..i];
      combined := AddReport(combined, ReportOf(tallies[i]), MergeAll(tallies[..i]), tallies[i]);
    }
    assert tallies[..|tallies|] == tallies;
  }

  method AddReport(combined: Report, report: Report, ghost total: Tally, ghost t: Tally) returns (r: Report)
    requires combined == ReportOf(total).(uniquePayers := combined.uniquePayers, micros := combined.micros)
    requires report == ReportOf(t)
    ensures r == ReportOf(Merge(total, t)).(uniquePayers := combined.uniquePayers + report.uniquePayers,
                                            micros := combined.micros + report.micros)
  {
    var from, to := combined.from, combined.to;
    if report.from.Some? {
      from := if from.None? || report.from.value < from.value then report.from else from;
    }
    if report.to.Some? {
      to := if to.None? || to.value < report.to.value then report.to else to;
    }
    r := Report(combined.noPayer + report.noPayer, combined.noRecord + report.noRecord,
                combined.uniquePayers + report.uniquePayers, combined.payments + report.payments,
                combined.micros + report.micros, combined.own + report.own, combined.zero + report.zero, from, to);
  }

  /** A whole number of millionths, as a token with six decimals only has. */
  predicate WholeMicros(amount: real) {
    (1000000.0 * amount).Floor as real == 1000000.0 * amount
  }

  lemma WholeSum(a: real, b: real)
    requires WholeMicros(a) && WholeMicros(b)
    ensures WholeMicros(a + b)
  {
    var x, y := (1000000.0 * a).Floor, (1000000.0 * b).Floor;
    assert 1000000.0 * (a + b) == (x + y) as real;
  }

  /** Payments in whole millionths make a chain's total one. */
  lemma {:induction false} WholeTotals(ts: seq<Transfer>, p: Policy)
    requires forall t :: t in ts && t.Payment? ==> WholeMicros(t.paid)
    ensures WholeMicros(TallyOf(ts, p).amount)
  {
    if ts != [] {
      var n := |ts| - 1;
      assert ts[n] in ts;
      WholeTotals(ts[..n], p);
      TallyLast(ts, p);
      WholeSum(TallyOf(ts[..n], p).amount, Single(ts[n], p).amount);
    }
  }

  lemma {:induction false} SumIsWhole(tallies: seq<Tally>)
    requires forall t :: t in tallies ==> WholeMicros(t.amount)
    ensures SumMicros(tallies) as real == 1000000.0 * MergeAll(tallies).amount
  {
    if tallies != [] {
      var n := |tallies| - 1;
      assert tallies[n] in tallies;
      SumIsWhole(tallies[..n]);
    }
  }

  /** Rounding each chain before adding moves the total by at most half a millionth a chain, and not at all when
      the chains' amounts are whole millionths. */
  lemma {:induction false} RoundingDrift(tallies: seq<Tally>)
    ensures -(|tallies| as real) <= 2.0 * (SumMicros(tallies) as real - 1000000.0 * MergeAll(tallies).amount)
            <= |tallies| as real
    ensures (forall t :: t in tallies ==> WholeMicros(t.amount)) ==>
              SumMicros(tallies) == Micros(MergeAll(tallies).amount)
  {
    if tallies != [] { RoundingDrift(tallies[..|tallies| - 1]); }
    if forall t :: t in tallies ==> WholeMicros(t.amount) { SumIsWhole(tallies); }
  }

  function SumPayers(tallies: seq<Tally>): nat {
    if tallies == [] then 0 else SumPayers(tallies[..|tallies| - 1]) + |tallies[|tallies| - 1].payers|
  }

  lemma UnionSize(a: set<Address>, b: set<Address>)
    ensures |a + b| == |a| + |b| - |a * b|
    ensures a * b == {} <==> |a * b| == 0
  {
    assert a + b == a + (b - a) && b == (b - a) + a * b;
  }

  lemma {:induction false} UnionMembers(tallies: seq<Tally>, a: Address)
    ensures a in MergeAll(tallies).payers <==> exists i :: 0 <= i < |tallies| && a in tallies[i].payers
  {
    if tallies != [] {
      var n := |tallies| - 1;
      UnionMembers(tallies[..n], a);
      if exists i :: 0 <= i < |tallies| && a in tallies[i].payers {
        var i :| 0 <= i < |tallies| && a in tallies[i].payers;
        assert i < n ==> a in tallies[..n][i].payers;
      }
      if a in MergeAll(tallies[..n]).payers {
        var i :| 0 <= i < n && a in tallies[..n][i].payers;
        assert a in tallies[i].payers;
      }
    }
  }

  ghost predicate Disjoint(tallies: seq<Tally>) {
    forall i, j :: 0 <= i < j < |tallies| ==> tallies[i].payers !! tallies[j].payers
  }

  lemma DisjointOneMore(tallies: seq<Tally>)
    requires tallies != []
    ensures var n := |tallies| - 1;
            Disjoint(tallies) <==> Disjoint(tallies[..n]) && MergeAll(tallies[..n]).payers !! tallies[n].payers
  {
    var n := |tallies| - 1;
    forall a
      ensures a in MergeAll(tallies[..n]).payers <==> exists i :: 0 <= i < n && a in tallies[..n][i].payers
    {
      UnionMembers(tallies[..n], a);
    }
    if Disjoint(tallies) {
      forall a | a in MergeAll(tallies[..n]).payers
        ensures a !in tallies[n].payers
      {
        var i :| 0 <= i < n && a in tallies[..n][i].payers;
        assert tallies[i].payers !! tallies[n].payers;
      }
    }
    if Disjoint(tallies[..n]) && MergeAll(tallies[..n]).payers !! tallies[n].payers {
      forall i, j | 0 <= i < j < |tallies|
        ensures tallies[i].payers !! tallies[j].payers
      {
        assert tallies[i] == tallies[..n][i];
        if j < n {
          assert tallies[j] == tallies[..n][j];
        } else {
          assert tallies[i].payers <= MergeAll(tallies[..n]).payers;
        }
      }
    }
  }

  /** The combined payer count is the number of different payers iff no two chains share one. */
  lemma {:induction false} SumIsUnionIff(tallies: seq<Tally>)
    ensures SumPayers(tallies) >= |MergeAll(tallies).payers|
    ensures SumPayers(tallies) == |MergeAll(tallies).payers| <==> Disjoint(tallies)
  {
    if tallies != [] {
      var n := |tallies| - 1;
      SumIsUnionIff(tallies[..n]);
      DisjointOneMore(tallies);
      UnionSize(MergeAll(tallies[..n]).payers, tallies[n].payers);
    }
  }
}

/** Crediting the settlements of the Base allowance store to owner wallets. Addresses and account ids are
    taken as already normalised; an account id either names a wallet or not. */
module WalletLedger {
  import opened Options
  import opened OrderedDicts

  datatype Account = WalletAccount(address: string) | ServiceAccount(id: string)

  datatype Limiter = Limiter(user: Account, owner: string, createdAt: int, rejected: bool)

  datatype Settlement = Settlement(user: Account, amount: int, at: int, topUp: bool)

  datatype Window = Window(since: Option<int>, until: Option<int>) {
    predicate Contains(at: int) {
      (since.None? || since.value <= at) && (until.None? || at < until.value)
    }
  }

  datatype Wallet = Wallet(hasLimits: bool, payments: nat, atomic: int, topUps: nat, first: Option<int>,
                           keys: set<string>)

  const NEW_WALLET := Wallet(false, 0, 0, 0, None, {})

  type Wallets = Dict<string, Wallet>

  /** A user's limiters that were not rejected, oldest first. */
  function Owned(limiters: seq<Limiter>, user: Account): seq<Limiter> {
    if limiters == [] then []
    else
      var n := |limiters| - 1;
      var earlier := Owned(limiters[..n], user);
      if limiters[n].user == user && !limiters[n].rejected then earlier + [limiters[n]] else earlier
  }

  ghost predicate ByCreation(limiters: seq<Limiter>) {
    forall i, j :: 0 <= i < j < |limiters| ==> limiters[i].createdAt <= limiters[j].createdAt
  }

  /** The last limiter created at or before `at`, else the first. */
  function Chosen(owned: seq<Limiter>, at: int): (l: Limiter)
    requires owned != []
    ensures l in owned
  {
    var n := |owned| - 1;
    if n == 0 || owned[n].createdAt <= at then owned[n] else Chosen(owned[..n], at)
  }

  function OwnerAt(limiters: seq<Limiter>, user: Account, at: int): Option<string> {
    var owned := Owned(limiters, user);
    if owned != [] then Some(Chosen(owned, at).owner)
    else if user.WalletAccount? then Some(user.address)
    else None
  }

  method OwnerOf(limiters: seq<Limiter>, user: Account, at: int) returns (owner: Option<string>)
    ensures owner == OwnerAt(limiters, user, at)
  {
    var known := Owned(limiters, user);
    if known != [] {
      var chosen := known[0].owner;
      var i := 0;
      while i < |known|
        invariant 0 <= i <= |known|
        invariant chosen == Chosen(if i == 0 then known[..1] else known[..i], at).owner
      {
        assert i > 0 ==> known[..i + 1][..i] == known[..i];
        if known[i].createdAt <= at {
          chosen := known[i].owner;
        }
        i := i + 1;
      }
      assert known[..|known|] == known;
      return Some(chosen);
    }
    if user.WalletAccount? {
      return Some(user.address);
    }
    return None;
  }

  /** Limiter k is the user's first that was not rejected. */
  ghost predicate IsFirst(limiters: seq<Limiter>, user: Account, l: Limiter) {
    exists k :: 0 <= k < |limiters| && limiters[k] == l && FirstAt(limiters, user, k)
  }

  ghost predicate FirstAt(limiters: seq<Limiter>, user: Account, k: nat)
    requires k < |limiters|
  {
    && limiters[k].user == user && !limiters[k].rejected
    && forall j :: 0 <= j < k ==> limiters[j].user != user || limiters[j].rejected
  }

  lemma {:induction false} OwnedStartsFirst(limiters: seq<Limiter>, user: Account)
    requires Owned(limiters, user) != []
    ensures IsFirst(limiters, user, Owned(limiters, user)[0])
  {
    var n := |limiters| - 1;
    var before := limiters[..n];
    if Owned(before, user) == [] {
      NoneOwned(before, user);
      assert forall j :: 0 <= j < n ==> limiters[j] in before;
      assert FirstAt(limiters, user, n);
    } else {
      OwnedStartsFirst(before, user);
      var k :| 0 <= k < n && before[k] == Owned(before, user)[0] && FirstAt(before, user, k);
      assert FirstAt(limiters, user, k);
    }
  }

  lemma {:induction false} NoneInTime(owned: seq<Limiter>, at: int)
    requires owned != [] && forall l :: l in owned ==> at < l.createdAt
    ensures Chosen(owned, at) == owned[0]
  {
    var n := |owned| - 1;
    if n > 0 {
      assert owned[n] in owned;
      NoneInTime(owned[..n], at);
    }
  }

  lemma {:induction false} OwnedMembers(limiters: seq<Limiter>, user: Account, l: Limiter)
    ensures l in Owned(limiters, user) <==> l in limiters && l.user == user && !l.rejected
  {
    if limiters != [] {
      var n := |limiters| - 1;
      OwnedMembers(limiters[..n], user, l);
      assert limiters == limiters[..n] + [limiters[n]];
    }
  }

  /** The chosen limiter is one of the user's own, not rejected. If any of those was created at or before the
      payment, it is the latest such; otherwise it is the user's first. */
  lemma ChosenIsLatest(limiters: seq<Limiter>, user: Account, at: int)
    requires ByCreation(limiters) && Owned(limiters, user) != []
    ensures var chosen := Chosen(Owned(limiters, user), at);
            && chosen in limiters && chosen.user == user && !chosen.rejected
            && (forall l :: l in limiters && l.user == user && !l.rejected && l.createdAt <= at ==>
                  l.createdAt <= chosen.createdAt <= at)
            && ((forall l :: l in limiters && l.user == user && !l.rejected ==> at < l.createdAt) ==>
                  IsFirst(limiters, user, chosen))
  {
    var owned := Owned(limiters, user);
    LatestInTime(limiters, user, at);
    if forall l :: l in limiters && l.user == user && !l.rejected ==> at < l.createdAt {
      forall l | l in owned
        ensures at < l.createdAt
      {
        OwnedMembers(limiters, user, l);
      }
      NoneInTime(owned, at);
      OwnedStartsFirst(limiters, user);
    }
  }

  lemma {:induction false} LatestInTime(limiters: seq<Limiter>, user: Account, at: int)
    requires ByCreation(limiters) && Owned(limiters, user) != []
    ensures var chosen := Chosen(Owned(limiters, user), at);
            && chosen in limiters && chosen.user == user && !chosen.rejected
            && (forall l :: l in limiters && l.user == user && !l.rejected && l.createdAt <= at ==>
                  l.createdAt <= chosen.createdAt <= at)
  {
    var n := |limiters| - 1;
    var before, last := limiters[..n], limiters[n];
    assert limiters == before + [last];
    assert last in limiters;
    var owned := Owned(limiters, user);
    if Owned(before, user) == [] {
      NoneOwned(before, user);
    } else {
      LatestInTime(before, user, at);
      if last.user == user && !last.rejected {
        assert owned[..|owned| - 1] == Owned(before, user);
      }
    }
  }

  lemma {:induction false} NoneOwned(limiters: seq<Limiter>, user: Account)
    requires Owned(limiters, user) == []
    ensures forall l :: l in limiters ==> l.user != user || l.rejected
  {
    if limiters != [] {
      NoneOwned(limiters[..|limiters| - 1], user);
      assert forall l :: l in limiters ==> l in limiters[..|limiters| - 1] || l == limiters[|limiters| - 1];
    }
  }

  // ----- The ledger -----

  /** Whom a settlement inside the window is credited to. */
  function Credited(limiters: seq<Limiter>, w: Window, s: Settlement): Option<string> {
    if w.Contains(s.at) then OwnerAt(limiters, s.user, s.at) else None
  }

  function Least(a: Option<int>, b: int): Option<int> {
    if a.None? || b < a.value then Some(b) else a
  }

  /** What the settlements credited to one owner add up to. */
  function Earned(limiters: seq<Limiter>, w: Window, settlements: seq<Settlement>, owner: string): Wallet {
    if settlements == [] then NEW_WALLET
    else
      var n := |settlements| - 1;
      var before, s := Earned(limiters, w, settlements[..n], owner), settlements[n];
      if Credited(limiters, w, s) == Some(owner)
      then before.(payments := before.payments + 1, atomic := before.atomic + s.amount,
                   topUps := if s.topUp then before.topUps + 1 else before.topUps, first := Least(before.first, s.at))
      else before
  }

  function Unattributed(limiters: seq<Limiter>, w: Window, settlements: seq<Settlement>): nat {
    if settlements == [] then 0
    else
      var n := |settlements| - 1;
      Unattributed(limiters, w, settlements[..n])
      + if w.Contains(settlements[n].at) && OwnerAt(limiters, settlements[n].user, settlements[n].at).None? then 1
          else 0
  }

  predicate SameMoney(a: Wallet, b: Wallet) {
    a.payments == b.payments && a.atomic == b.atomic && a.topUps == b.topUps && a.first == b.first
  }

  /** Every wallet shows exactly what was credited to its owner, and every credited owner has a wallet. */
  ghost predicate Books(wallets: Wallets, limiters: seq<Limiter>, w: Window, settlements: seq<Settlement>) {
    && wallets.Valid()
    && (forall o: string :: SameMoney(if o in wallets.entries then wallets.entries[o] else NEW_WALLET,
                                      Earned(limiters, w, settlements, o)))
    && (forall l :: l in limiters && !l.rejected ==> l.owner in wallets.entries && wallets.entries[l.owner].hasLimits)
  }

  /** Whoever was credited for a user's settlement can be excluded by any key of that user. */
  ghost predicate Keyed(wallets: Wallets, limiters: seq<Limiter>, w: Window, settlements: seq<Settlement>,
                        keysFor: Account -> set<string>) {
    forall s :: s in settlements && Credited(limiters, w, s).Some? ==>
      var o := Credited(limiters, w, s).value;
      o in wallets.entries && {o} + keysFor(s.user) <= wallets.entries[o].keys
  }

  method LimiterWallets(limiters: seq<Limiter>, w: Window, keysFor: Account -> set<string>) returns (wallets: Wallets)
    ensures Books(wallets, limiters, w, [])
  {
    wallets := Empty();
    var i := 0;
    while i < |limiters|
      invariant 0 <= i <= |limiters|
      invariant Books(wallets, limiters[..i], w, [])
    {
      var l := limiters[i];
      assert limiters[..i + 1] == limiters[..i] + [l];
      if !l.rejected {
        var wallet := if l.owner in wallets.entries then wallets.entries[l.owner] else NEW_WALLET;
        wallets := wallets.Put(l.owner, wallet.(hasLimits := true, keys := wallet.keys + {l.owner} + keysFor(l.user)));
      }
      i := i + 1;
    }
    assert limiters[..|limiters|] == limiters;
  }

  /** One settlement enters its owner's wallet. */
  function Pay(wallets: Wallets, owner: string, s: Settlement, keys: set<string>): (r: Wallets)
    requires wallets.Valid()
    ensures r.Valid()
  {
    var wallet := if owner in wallets.entries then wallets.entries[owner] else NEW_WALLET;
    wallets.Put(owner, wallet.(payments := wallet.payments + 1, atomic := wallet.atomic + s.amount,
                               topUps := if s.topUp then wallet.topUps + 1 else wallet.topUps,
                               first := Least(wallet.first, s.at), keys := wallet.keys + {owner} + keys))
  }

  lemma PayEarns(wallets: Wallets, limiters: seq<Limiter>, w: Window, done: seq<Settlement>, s: Settlement,
                 keys: set<string>)
    requires Books(wallets, limiters, w, done) && Credited(limiters, w, s).Some?
    ensures Books(Pay(wallets, Credited(limiters, w, s).value, s, keys), limiters, w, done + [s])
  {
    var owner := Credited(limiters, w, s).value;
    var after := Pay(wallets, owner, s, keys);
    assert (done + [s])[..|done|] == done;
    forall o: string
      ensures SameMoney(if o in after.entries then after.entries[o] else NEW_WALLET,
                        Earned(limiters, w, done + [s], o))
    {
      assert SameMoney(if o in wallets.entries then wallets.entries[o] else NEW_WALLET,
                       Earned(limiters, w, done, o));
    }
  }

  lemma PayKeys(wallets: Wallets, limiters: seq<Limiter>, w: Window, done: seq<Settlement>, s: Settlement,
                keysFor: Account -> set<string>)
    requires wallets.Valid() && Keyed(wallets, limiters, w, done, keysFor) && Credited(limiters, w, s).Some?
    ensures Keyed(Pay(wallets, Credited(limiters, w, s).value, s, keysFor(s.user)), limiters, w, done + [s], keysFor)
  {
    var after := Pay(wallets, Credited(limiters, w, s).value, s, keysFor(s.user));
    forall x | x in done + [s] && Credited(limiters, w, x).Some?
      ensures var o := Credited(limiters, w, x).value;
              o in after.entries && {o} + keysFor(x.user) <= after.entries[o].keys
    {
      if x != s { assert x in done; }
    }
  }

  lemma UncreditedKeeps(wallets: Wallets, limiters: seq<Limiter>, w: Window, done: seq<Settlement>, s: Settlement,
                        keysFor: Account -> set<string>)
    requires Books(wallets, limiters, w, done) && Keyed(wallets, limiters, w, done, keysFor)
    requires Credited(limiters, w, s).None?
    ensures Books(wallets, limiters, w, done + [s]) && Keyed(wallets, limiters, w, done + [s], keysFor)
  {
    assert (done + [s])[..|done|] == done;
  }

  /** Crediting one more settlement, or not crediting it, keeps the books. */
  lemma OneMore(wallets: Wallets, limiters: seq<Limiter>, w: Window, done: seq<Settlement>, s: Settlement,
                keysFor: Account -> set<string>)
    requires Books(wallets, limiters, w, done) && Keyed(wallets, limiters, w, done, keysFor)
    ensures var owner := Credited(limiters, w, s);
            var after := if owner.Some? then Pay(wallets, owner.value, s, keysFor(s.user)) else wallets;
            Books(after, limiters, w, done + [s]) && Keyed(after, limiters, w, done + [s], keysFor)
    ensures Unattributed(limiters, w, done + [s]) == Unattributed(limiters, w, done)
            + if w.Contains(s.at) && OwnerAt(limiters, s.user, s.at).None? then 1 else 0
  {
    assert (done + [s])[..|done|] == done;
    if Credited(limiters, w, s).Some? {
      PayEarns(wallets, limiters, w, done, s, keysFor(s.user));
      PayKeys(wallets, limiters, w, done, s, keysFor);
    } else {
      UncreditedKeeps(wallets, limiters, w, done, s, keysFor);
    }
  }

  method ReadBase(limiters: seq<Limiter>, w: Window, settlements: seq<Settlement>, keysFor: Account -> set<string>)
    returns (wallets: Wallets, unattributed: nat)
    ensures Books(wallets, limiters, w, settlements)
    ensures Keyed(wallets, limiters, w, settlements, keysFor)
    ensures unattributed == Unattributed(limiters, w, settlements)
  {
    wallets := LimiterWallets(limiters, w, keysFor);
    unattributed := 0;
    var i := 0;
    while i < |settlements|
      invariant 0 <= i <= |settlements|
      invariant Books(wallets, limiters, w, settlements[..i])
      invariant Keyed(wallets, limiters, w, settlements[..i], keysFor)
      invariant unattributed == Unattributed(limiters, w, settlements[..i])
    {
      var s := settlements[i];
      assert settlements[..i + 1] == settlements[..i] + [s];
      OneMore(wallets, limiters, w, settlements[..i], s, keysFor);
      if w.Contains(s.at) {
        var owner := OwnerOf(limiters, s.user, s.at);
        if owner.None? {
          unattributed := unattributed + 1;
        } else {
          wallets := Pay(wallets, owner.value, s, keysFor(s.user));
        }
      }
      i := i + 1;
    }
    assert settlements[..|settlements|] == settlements;
  }

  // ----- Conservation -----

  datatype Measure = One | HasLimits | Paid | Payments | Atomic

  function Value(m: Measure, wallet: Wallet): int {
    match m
    case One => 1
    case HasLimits => if wallet.hasLimits then 1 else 0
    case Paid => if wallet.payments > 0 then 1 else 0
    case Payments => wallet.payments
    case Atomic => wallet.atomic
  }

  function InWindow(w: Window, settlements: seq<Settlement>): nat {
    if settlements == [] then 0
    else InWindow(w, settlements[..|settlements| - 1]) + if w.Contains(settlements[|settlements| - 1].at) then 1 else 0
  }

  /** The amounts of the settlements that have an owner. */
  function AttributedAmount(limiters: seq<Limiter>, w: Window, settlements: seq<Settlement>): int {
    if settlements == [] then 0
    else
      var n := |settlements| - 1;
      AttributedAmount(limiters, w, settlements[..n])
      + if Credited(limiters, w, settlements[n]).Some? then settlements[n].amount else 0
  }

  /** The amounts of the settlements of the window. */
  function AmountInWindow(w: Window, settlements: seq<Settlement>): int {
    if settlements == [] then 0
    else
      var n := |settlements| - 1;
      AmountInWindow(w, settlements[..n]) + if w.Contains(settlements[n].at) then settlements[n].amount else 0
  }

  /** The amounts of the settlements of the window that have no owner. */
  function UnattributedAmount(limiters: seq<Limiter>, w: Window, settlements: seq<Settlement>): int {
    if settlements == [] then 0
    else
      var n := |settlements| - 1;
      var s := settlements[n];
      UnattributedAmount(limiters, w, settlements[..n])
      + if w.Contains(s.at) && OwnerAt(limiters, s.user, s.at).None? then s.amount else 0
  }

  lemma {:induction false} AmountsAdd(limiters: seq<Limiter>, w: Window, settlements: seq<Settlement>)
    ensures AttributedAmount(limiters, w, settlements) + UnattributedAmount(limiters, w, settlements)
         == AmountInWindow(w, settlements)
  {
    if settlements != [] { AmountsAdd(limiters, w, settlements[..|settlements| - 1]); }
  }

  /** What the given owners earned together. */
  function EarnedTotal(order: seq<string>, limiters: seq<Limiter>, w: Window, settlements: seq<Settlement>,
                       m: Measure): int {
    if order == [] then 0
    else Value(m, Earned(limiters, w, settlements, order[0])) + EarnedTotal(order[1..], limiters, w, settlements, m)
  }

  lemma {:induction false} EarnedTotalStep(order: seq<string>, limiters: seq<Limiter>, w: Window,
                                           settlements: seq<Settlement>,
                                           m: Measure)
    requires settlements != [] && (m == Payments || m == Atomic)
    requires forall i, j :: 0 <= i < j < |order| ==> order[i] != order[j]
    ensures var n := |settlements| - 1;
            var credited := Credited(limiters, w, settlements[n]);
            EarnedTotal(order, limiters, w, settlements, m)
            == EarnedTotal(order, limiters, w, settlements[..n], m)
               + if credited.Some? && credited.value in order then (if m == Payments then 1 else settlements[n].amount)
                   else 0
  {
    if order != [] {
      EarnedTotalStep(order[1..], limiters, w, settlements, m);
      assert order[0] !in order[1..];
      assert forall o :: o in order <==> o == order[0] || o in order[1..];
    }
  }

  lemma {:induction false} NothingEarned(order: seq<string>, limiters: seq<Limiter>, w: Window, m: Measure)
    requires m == Payments || m == Atomic
    ensures EarnedTotal(order, limiters, w, [], m) == 0
  {
    if order != [] { NothingEarned(order[1..], limiters, w, m); }
  }

  /** Every settlement of the window is credited to exactly one of the owners or is unattributed. */
  lemma {:induction false} EarnedConserved(limiters: seq<Limiter>, w: Window, settlements: seq<Settlement>,
                                           order: seq<string>)
    requires forall i, j :: 0 <= i < j < |order| ==> order[i] != order[j]
    requires forall s :: s in settlements && Credited(limiters, w, s).Some? ==> Credited(limiters, w, s).value in order
    ensures EarnedTotal(order, limiters, w, settlements, Payments)
            + Unattributed(limiters, w, settlements) == InWindow(w, settlements)
    ensures EarnedTotal(order, limiters, w, settlements, Atomic) == AttributedAmount(limiters, w, settlements)
  {
    if settlements == [] {
      NothingEarned(order, limiters, w, Payments);
      NothingEarned(order, limiters, w, Atomic);
    } else {
      var n := |settlements| - 1;
      assert settlements[n] in settlements;
      EarnedConserved(limiters, w, settlements[..n], order);
      EarnedTotalStep(order, limiters, w, settlements, Payments);
      EarnedTotalStep(order, limiters, w, settlements, Atomic);
    }
  }

  // ----- The report -----

  datatype Side = External | Own | Everyone

  predicate Matches(wallet: Wallet, exclude: set<string>) {
    wallet.keys * exclude != {}
  }

  predicate OnSide(wallet: Wallet, exclude: set<string>, side: Side) {
    match side
    case External => !Matches(wallet, exclude)
    case Own => Matches(wallet, exclude)
    case Everyone => true
  }

  function Total(order: seq<string>, entries: map<string, Wallet>, exclude: set<string>, side: Side, m: Measure): int
    requires forall o :: o in order ==> o in entries
  {
    if order == [] then 0
    else
      (if OnSide(entries[order[0]], exclude, side) then Value(m, entries[order[0]]) else 0)
      + Total(order[1..], entries, exclude, side, m)
  }

  datatype Summary = Summary(withLimits: int, paid: int, payments: int, atomic: int,
                             excludedWallets: int, excludedPayments: int, excludedAtomic: int)

  function Summarize(wallets: Wallets, exclude: set<string>): Summary
    requires wallets.Valid()
  {
    var external := m => Total(wallets.order, wallets.entries, exclude, External, m);
    var own := m => Total(wallets.order, wallets.entries, exclude, Own, m);
    Summary(external(HasLimits), external(Paid), external(Payments), external(Atomic), own(One), own(Payments),
            own(Atomic))
  }

  lemma {:induction false} SidesAdd(order: seq<string>, entries: map<string, Wallet>, exclude: set<string>, m: Measure)
    requires forall o :: o in order ==> o in entries
    ensures Total(order, entries, exclude, External, m) + Total(order, entries, exclude, Own, m)
         == Total(order, entries, exclude, Everyone, m)
  {
    if order != [] { SidesAdd(order[1..], entries, exclude, m); }
  }

  lemma {:induction false} TotalIsEarned(order: seq<string>, wallets: Wallets, limiters: seq<Limiter>, w: Window,
                                         settlements: seq<Settlement>, exclude: set<string>, m: Measure)
    requires Books(wallets, limiters, w, settlements) && (m == Payments || m == Atomic)
    requires forall o :: o in order ==> o in wallets.entries
    ensures Total(order, wallets.entries, exclude, Everyone, m) == EarnedTotal(order, limiters, w, settlements, m)
  {
    if order != [] {
      TotalIsEarned(order[1..], wallets, limiters, w, settlements, exclude, m);
      assert SameMoney(wallets.entries[order[0]], Earned(limiters, w, settlements, order[0]));
    }
  }

  lemma {:induction false} EarnedPositive(limiters: seq<Limiter>, w: Window, settlements: seq<Settlement>,
                                          s: Settlement)
    requires s in settlements && Credited(limiters, w, s).Some?
    ensures Earned(limiters, w, settlements, Credited(limiters, w, s).value).payments > 0
  {
    var n := |settlements| - 1;
    if settlements[n] != s {
      assert s in settlements[..n];
      EarnedPositive(limiters, w, settlements[..n], s);
    }
  }

  /** Whatever is excluded, the report's settlements and amounts are those of the window less the
      unattributed ones. */
  lemma ReportConserves(wallets: Wallets, limiters: seq<Limiter>, w: Window, settlements: seq<Settlement>,
                        exclude: set<string>)
    requires Books(wallets, limiters, w, settlements)
    ensures var r := Summarize(wallets, exclude);
            && r.payments + r.excludedPayments + Unattributed(limiters, w, settlements) == InWindow(w, settlements)
            && r.atomic + r.excludedAtomic == AttributedAmount(limiters, w, settlements)
            && r.atomic + r.excludedAtomic + UnattributedAmount(limiters, w, settlements) == AmountInWindow(w,
                settlements)
  {
    AmountsAdd(limiters, w, settlements);
    forall s | s in settlements && Credited(limiters, w, s).Some?
      ensures Credited(limiters, w, s).value in wallets.order
    {
      EarnedPositive(limiters, w, settlements, s);
    }
    EarnedConserved(limiters, w, settlements, wallets.order);
    SidesAdd(wallets.order, wallets.entries, exclude, Payments);
    SidesAdd(wallets.order, wallets.entries, exclude, Atomic);
    TotalIsEarned(wallets.order, wallets, limiters, w, settlements, exclude, Payments);
    TotalIsEarned(wallets.order, wallets, limiters, w, settlements, exclude, Atomic);
  }
}

/** Reading a chain's history: log ranges, cursor pagination of signatures, and one fetch a signature. */
module Pagination {
  import opened Options

  // ----- Block ranges -----

  datatype Chunk = Chunk(first: int, last: int)

  function Interval(low: int, high: int): seq<int> {
    if low > high then [] else seq(high - low + 1, i => low + i)
  }

  /** The blocks asked for, in the order they are asked for. */
  function Blocks(chunks: seq<Chunk>): seq<int> {
    if chunks == [] then []
    else Blocks(chunks[..|chunks| - 1]) + Interval(chunks[|chunks| - 1].first, chunks[|chunks| - 1].last)
  }

  /** The ranges requested for [low, high]: None for a chunk size the source refuses. Every block of the
      interval is requested once, in order; only the last range may be short. */
  method LogChunks(low: int, high: int, size: int) returns (chunks: Option<seq<Chunk>>)
    ensures chunks.None? <==> size < 1
    ensures chunks.Some? ==>
              && Blocks(chunks.value) == Interval(low, high)
              && (forall c :: c in chunks.value ==> c.first <= c.last && c.last - c.first + 1 <= size)
              && (forall i :: 0 <= i < |chunks.value| - 1 ==> chunks.value[i].last - chunks.value[i].first + 1 == size)
  {
    if size < 1 {
      return None;
    }
    var done: seq<Chunk> := [];
    var start := low;
    while start <= high
      invariant low <= start && (start <= high + 1 || done == [])
      invariant Blocks(done) == Interval(low, start - 1)
      invariant forall c :: c in done ==> c.first <= c.last && c.last - c.first + 1 <= size
      invariant forall i :: 0 <= i < |done| && (i < |done| - 1 || start <= high) ==>
                done[i].last - done[i].first + 1 == size
      decreases high - start
    {
      var end := if start + size - 1 < high then start + size - 1 else high;
      assert Interval(low, start - 1) + Interval(start, end) == Interval(low, end);
      assert (done + [Chunk(start, end)])[..|done|] == done;
      done := done + [Chunk(start, end)];
      start := end + 1;
    }
    assert Interval(low, start - 1) == Interval(low, high);
    return Some(done);
  }

  // ----- Signatures, newest first -----

  datatype Entry = Entry(signature: Option<nat>, day: Option<int>, failed: bool)

  datatype Outcome = Completed | NoCursor | TooManyPages

  /** The server's page: what follows the cursor, at most `size` entries of it. */
  function Page(history: seq<Entry>, before: Option<nat>, size: nat): seq<Entry> {
    if before.None? then history[..if size < |history| then size else |history|]
    else if history == [] then []
    else if history[0].signature == before then Page(history[1..], None, size)
    else Page(history[1..], before, size)
  }

  ghost predicate DistinctSignatures(history: seq<Entry>) {
    forall i, j :: 0 <= i < j < |history| && history[i].signature.Some? ==> history[i].signature != history[j].signature
  }

  predicate Old(e: Entry, since: Option<int>) {
    since.Some? && e.day.Some? && e.day.value < since.value
  }

  /** The history up to the first entry older than `since`. */
  function Recent(history: seq<Entry>, since: Option<int>): seq<Entry> {
    if history == [] || Old(history[0], since) then [] else [history[0]] + Recent(history[1..], since)
  }

  lemma {:induction false} PageAfter(history: seq<Entry>, position: nat, size: nat)
    requires DistinctSignatures(history) && 0 < position <= |history| && history[position - 1].signature.Some?
    ensures Page(history, history[position - 1].signature, size)
         == history[position..if position + size < |history| then position + size else |history|]
  {
    if position > 1 {
      assert history[0].signature != history[position - 1].signature;
      PageAfter(history[1..], position - 1, size);
    }
  }

  lemma {:induction false} RecentPrefix(history: seq<Entry>, since: Option<int>, n: nat)
    requires n <= |history| && forall i :: 0 <= i < n ==> !Old(history[i], since)
    ensures history[..n] <= Recent(history, since)
    ensures n == |history| || Old(history[n], since) ==> Recent(history, since) == history[..n]
  {
    if n > 0 {
      RecentPrefix(history[1..], since, n - 1);
      assert history[..n] == [history[0]] + history[1..][..n - 1];
    }
  }

  /** The entries of one page that are yielded: those before the first old one. */
  method YieldPage(batch: seq<Entry>, since: Option<int>) returns (taken: seq<Entry>, stopped: bool)
    ensures taken == Recent(batch, since)
    ensures stopped <==> taken != batch
  {
    taken := [];
    var i := 0;
    while i < |batch|
      invariant 0 <= i <= |batch| && taken == batch[..i]
      invariant forall j :: 0 <= j < i ==> !Old(batch[j], since)
    {
      RecentPrefix(batch, since, i);
      if Old(batch[i], since) {
        return taken, true;
      }
      taken := taken + [batch[i]];
      i := i + 1;
    }
    RecentPrefix(batch, since, i);
    return taken, false;
  }

  lemma {:induction false} RecentAppend(a: seq<Entry>, b: seq<Entry>, since: Option<int>)
    ensures Recent(a + b, since) == if Recent(a, since) == a then a + Recent(b, since) else Recent(a, since)
  {
    if a == [] {
      assert a + b == b;
    } else {
      assert (a + b)[1..] == a[1..] + b && a == [a[0]] + a[1..];
      RecentAppend(a[1..], b, since);
    }
  }

  /** The cursor for the page after `yielded`: its last signature. */
  function Cursor(yielded: seq<Entry>): Option<nat> {
    if yielded == [] then None else yielded[|yielded| - 1].signature
  }

  /** Between two pages: what was yielded is all recent, `rest` is still to come, and the cursor is the last
      signature yielded. */
  ghost predicate Between(history: seq<Entry>, yielded: seq<Entry>, rest: seq<Entry>, before: Option<nat>,
                          since: Option<int>) {
    && DistinctSignatures(history) && history == yielded + rest && Recent(yielded, since) == yielded
    && before == Cursor(yielded) && (yielded == [] || before.Some?)
  }

  lemma PageFollows(history: seq<Entry>, yielded: seq<Entry>, rest: seq<Entry>, before: Option<nat>, size: nat)
    requires DistinctSignatures(history) && history == yielded + rest && 0 < size
    requires before == Cursor(yielded) && (yielded == [] || before.Some?)
    ensures Page(history, before, size) <= rest
    ensures Page(history, before, size) == [] ==> rest == []
  {
    if yielded != [] {
      assert yielded[|yielded| - 1] == history[|yielded| - 1];
      PageAfter(history, |yielded|, size);
    }
  }

  lemma PrefixIsRecent(batch: seq<Entry>, later: seq<Entry>, since: Option<int>)
    ensures Recent(batch, since) <= Recent(batch + later, since)
    ensures Recent(batch, since) != batch ==> Recent(batch + later, since) == Recent(batch, since)
  {
    RecentAppend(batch, later, since);
  }

  lemma PageIsRecent(yielded: seq<Entry>, rest: seq<Entry>, batch: seq<Entry>, since: Option<int>)
    requires Recent(yielded, since) == yielded && batch <= rest
    ensures yielded + Recent(batch, since) <= Recent(yielded + rest, since)
    ensures Recent(batch, since) != batch ==> yielded + Recent(batch, since) == Recent(yielded + rest, since)
    ensures Recent(batch, since) == batch ==> Recent(yielded + batch, since) == yielded + batch
    ensures yielded + rest == (yielded + batch) + rest[|batch|..]
  {
    assert rest == batch + rest[|batch|..];
    assert yielded + rest == (yielded + batch) + rest[|batch|..];
    PrefixIsRecent(batch, rest[|batch|..], since);
    RecentAppend(yielded, rest, since);
    RecentAppend(yielded, batch, since);
    PrefixPlus(yielded, Recent(batch, since), Recent(rest, since));
  }

  lemma PrefixPlus<T>(a: seq<T>, b: seq<T>, c: seq<T>)
    requires b <= c
    ensures a + b <= a + c
  {
  }

  lemma EmptyPage(history: seq<Entry>, yielded: seq<Entry>, since: Option<int>)
    requires history == yielded + [] && Recent(yielded, since) == yielded
    ensures yielded + Recent([], since) == Recent(history, since)
  {
    assert history == yielded && yielded + [] == yielded;
  }

  lemma FullPage(history: seq<Entry>, yielded: seq<Entry>, rest: seq<Entry>, batch: seq<Entry>, since: Option<int>)
    requires batch != [] && |batch| <= |rest| && batch[|batch| - 1].signature.Some?
    requires DistinctSignatures(history) && history == yielded + batch + rest[|batch|..]
    requires Recent(yielded + batch, since) == yielded + batch
    ensures Between(history, yielded + batch, rest[|batch|..], batch[|batch| - 1].signature, since)
  {
    assert (yielded + batch)[|yielded + batch| - 1] == batch[|batch| - 1];
  }

  lemma OnePage(history: seq<Entry>, yielded: seq<Entry>, rest: seq<Entry>, before: Option<nat>, size: nat,
                since: Option<int>, batch: seq<Entry>, taken: seq<Entry>)
    requires Between(history, yielded, rest, before, since) && 0 < size
    requires batch == Page(history, before, size) && taken == Recent(batch, since)
    ensures yielded + taken <= Recent(history, since)
    ensures batch == [] || taken != batch ==> yielded + taken == Recent(history, since)
    ensures batch != [] && taken == batch && batch[|batch| - 1].signature.Some?
      ==> |batch| <= |rest| && Between(history, yielded + taken, rest[|batch|..], batch[|batch| - 1].signature, since)
  {
    PageFollows(history, yielded, rest, before, size);
    PageIsRecent(yielded, rest, batch, since);
    if batch == [] {
      EmptyPage(history, yielded, since);
    } else if taken == batch && batch[|batch| - 1].signature.Some? {
      FullPage(history, yielded, rest, batch, since);
    }
  }

  lemma BetweenIsPrefix(history: seq<Entry>, yielded: seq<Entry>, rest: seq<Entry>, before: Option<nat>,
                        since: Option<int>)
    requires Between(history, yielded, rest, before, since)
    ensures yielded <= Recent(history, since)
  {
    RecentAppend(yielded, rest, since);
  }

  /** One request, and the entries of its page that are yielded. */
  method ReadPage(history: seq<Entry>, ghost yielded: seq<Entry>, ghost rest: seq<Entry>, before: Option<nat>,
                  size: nat, since: Option<int>)
    returns (batch: seq<Entry>, taken: seq<Entry>, stopped: bool)
    requires Between(history, yielded, rest, before, since) && 0 < size
    ensures yielded + taken <= Recent(history, since)
    ensures batch == [] ==> yielded == Recent(history, since)
    ensures stopped ==> yielded + taken == Recent(history, since)
    ensures !stopped ==> taken == batch
    ensures batch != [] && !stopped ==> batch[|batch| - 1].signature == Cursor(yielded + taken)
    ensures batch != [] && !stopped && batch[|batch| - 1].signature.Some?
      ==> |batch| <= |rest| && Between(history, yielded + taken, rest[|batch|..], batch[|batch| - 1].signature, since)
  {
    batch := Page(history, before, size);
    taken, stopped := YieldPage(batch, since);
    OnePage(history, yielded, rest, before, size, since, batch, taken);
    assert yielded + [] == yielded;
  }

  /** `sizes[k]` is how many entries the server is willing to put on the k-th page. What is yielded is always
      a prefix of the recent history, and all of it when the iteration ends without raising. */
  method IterSignatures(history: seq<Entry>, since: Option<int>, sizes: seq<nat>)
    returns (yielded: seq<Entry>, outcome: Outcome)
    requires DistinctSignatures(history) && forall k :: 0 <= k < |sizes| ==> 0 < sizes[k]
    ensures yielded <= Recent(history, since)
    ensures outcome.Completed? ==> yielded == Recent(history, since)
    ensures outcome.NoCursor? ==> yielded != [] && Cursor(yielded).None?
    ensures outcome.TooManyPages? ==> |yielded| >= |sizes|
  {
    yielded := [];
    var before: Option<nat> := None;
    ghost var rest := history;
    for k := 0 to |sizes|
      invariant k <= |yielded| && Between(history, yielded, rest, before, since)
    {
      var batch, taken, stopped := ReadPage(history, yielded, rest, before, sizes[k], since);
      if batch == [] {
        return yielded, Completed;
      }
      yielded := yielded + taken;
      if stopped {
        return yielded, Completed;
      }
      before := batch[|batch| - 1].signature;
      if before.None? {
        return yielded, NoCursor;
      }
      rest := rest[|batch|..];
    }
    BetweenIsPrefix(history, yielded, rest, before, since);
    return yielded, TooManyPages;
  }

  // ----- Each signature is fetched once -----

  function Flatten(accounts: seq<seq<Entry>>): seq<Entry> {
    if accounts == [] then [] else Flatten(accounts[..|accounts| - 1]) + accounts[|accounts| - 1]
  }

  /** A signature is fetched iff the first entry that carries it did not fail. */
  ghost predicate FetchedExactly(fetched: seq<nat>, entries: seq<Entry>) {
    && (forall i, j :: 0 <= i < j < |fetched| ==> fetched[i] != fetched[j])
    && (forall s: nat :: s in fetched <==> FirstSucceeds(entries, s))
  }

  ghost predicate FirstSucceeds(entries: seq<Entry>, s: nat) {
    exists i :: 0 <= i < |entries| && entries[i].signature == Some(s) && !entries[i].failed
        && !Mentions(entries[..i], s)
  }

  predicate Mentions(entries: seq<Entry>, s: nat) {
    exists i :: 0 <= i < |entries| && entries[i].signature == Some(s)
  }

  lemma OneMoreEntry(entries: seq<Entry>, e: Entry, s: nat)
    ensures Mentions(entries + [e], s) <==> Mentions(entries, s) || e.signature == Some(s)
    ensures FirstSucceeds(entries + [e], s) <==>
            FirstSucceeds(entries, s) || (e.signature == Some(s) && !e.failed && !Mentions(entries, s))
  {
    var more := entries + [e];
    var n := |entries|;
    assert more[..n] == entries && more[n] == e;
    assert forall i :: 0 <= i < n ==> more[i] == entries[i] && more[..i] == entries[..i];
    if Mentions(entries, s) {
      var i :| 0 <= i < n && entries[i].signature == Some(s);
      assert more[i].signature == Some(s);
    }
    if FirstSucceeds(entries, s) {
      var i :| 0 <= i < n && entries[i].signature == Some(s) && !entries[i].failed && !Mentions(entries[..i], s);
      assert more[i].signature == Some(s) && !Mentions(more[..i], s);
    }
  }

  /** The transactions asked for over all of the owner's token accounts. */
  method FetchTransactions(accounts: seq<seq<Entry>>) returns (fetched: seq<nat>)
    ensures FetchedExactly(fetched, Flatten(accounts))
  {
    fetched := [];
    var seen: set<nat> := {};
    var a := 0;
    while a < |accounts|
      invariant 0 <= a <= |accounts|
      invariant FetchedExactly(fetched, Flatten(accounts[..a]))
      invariant forall s: nat :: s in seen <==> Mentions(Flatten(accounts[..a]), s)
    {
      ghost var before := Flatten(accounts[..a]);
      var i := 0;
      assert before + accounts[a][..0] == before;
      while i < |accounts[a]|
        invariant 0 <= i <= |accounts[a]|
        invariant FetchedExactly(fetched, before + accounts[a][..i])
        invariant forall s: nat :: s in seen <==> Mentions(before + accounts[a][..i], s)
      {
        var e := accounts[a][i];
        ghost var entries := before + accounts[a][..i];
        assert before + accounts[a][..i + 1] == entries + [e];
        forall s: nat
          ensures Mentions(entries + [e], s) <==> Mentions(entries, s) || e.signature == Some(s)
          ensures FirstSucceeds(entries + [e], s) <==>
                  FirstSucceeds(entries, s) || (e.signature == Some(s) && !e.failed && !Mentions(entries, s))
        {
          OneMoreEntry(entries, e, s);
        }
        if e.signature.Some? && e.signature.value !in seen {
          seen := seen + {e.signature.value};
          if !e.failed {
            NeverFetched(entries, e.signature.value);
            fetched := fetched + [e.signature.value];
          }
        }
        i := i + 1;
      }
      assert accounts[..a + 1][..a] == accounts[..a];
      assert accounts[a][..|accounts[a]|] == accounts[a];
      a := a + 1;
    }
    assert accounts[..|accounts|] == accounts;
  }

  lemma NeverFetched(entries: seq<Entry>, s: nat)
    requires !Mentions(entries, s)
    ensures !FirstSucceeds(entries, s)
  {
  }
}

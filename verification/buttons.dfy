/** One-use, expiring, bounded views behind the inline buttons of the Telegram plugin. */
module ButtonViews {
  import opened Options
  import opened OrderedDicts
  import opened Texts

  type Key = (nat, nat) // user, chat

  type Source = nat

  datatype Button = Button(text: string, action: string)

  type Markup = seq<seq<Button>>

  datatype View = View(nonce: string, choices: seq<string>, source: Source, expires: real, messageId: Option<nat>)

  type Views = Dict<Key, View>

  function Payload(nonce: string, index: nat): string {
    Join(["singit", nonce, Print(index)], ':')
  }

  /** The actions of a markup, row by row. */
  function Choices(markup: Markup): seq<string> {
    if markup == [] then []
    else Choices(markup[..|markup| - 1]) + RowActions(markup[|markup| - 1])
  }

  function RowActions(row: seq<Button>): (r: seq<string>)
    ensures |r| == |row| && forall c :: 0 <= c < |row| ==> r[c] == row[c].action
  {
    seq(|row|, c requires 0 <= c < |row| => row[c].action)
  }

  /** How many buttons stand above a row. */
  function Offset(markup: Markup, row: nat): nat
    requires row <= |markup|
  {
    if row == 0 then 0 else Offset(markup, row - 1) + |markup[row - 1]|
  }

  lemma {:induction false} ChoiceAt(markup: Markup, row: nat, column: nat)
    requires row < |markup| && column < |markup[row]|
    ensures Offset(markup, row) + column < |Choices(markup)| == Offset(markup, |markup|)
    ensures Choices(markup)[Offset(markup, row) + column] == markup[row][column].action
    decreases |markup|
  {
    var above := markup[..|markup| - 1];
    ChoicesLength(markup);
    ChoicesLength(above);
    OffsetOfPrefix(markup, above, row);
    OffsetOfPrefix(markup, above, |above|);
    if row < |above| {
      ChoiceAt(above, row, column);
      OffsetOfPrefix(markup, above, row);
    }
  }

  lemma {:induction false} OffsetOfPrefix(markup: Markup, above: Markup, row: nat)
    requires above <= markup && row <= |above|
    ensures Offset(markup, row) == Offset(above, row)
  {
    if row > 0 { OffsetOfPrefix(markup, above, row - 1); }
  }

  lemma {:induction false} ChoicesLength(markup: Markup)
    ensures |Choices(markup)| == Offset(markup, |markup|)
  {
    if markup != [] {
      ChoicesLength(markup[..|markup| - 1]);
      OffsetOfPrefix(markup, markup[..|markup| - 1], |markup| - 1);
    }
  }

  // ----- What each operation does to the views -----

  function Unexpired(order: seq<Key>, entries: map<Key, View>, now: real): (r: seq<Key>)
    requires forall k :: k in order ==> k in entries
    requires forall i, j :: 0 <= i < j < |order| ==> order[i] != order[j]
    ensures forall k :: k in r <==> k in order && entries[k].expires > now
    ensures forall i, j :: 0 <= i < j < |r| ==> r[i] != r[j]
    ensures |r| <= |order|
  {
    if order == [] then []
    else
      var rest := Unexpired(order[1..], entries, now);
      assert forall k :: k in order <==> k == order[0] || k in order[1..];
      assert order[0] !in order[1..];
      assert order[0] !in rest && forall j :: 0 <= j < |rest| ==> rest[j] in rest;
      if entries[order[0]].expires > now then [order[0]] + rest else rest
  }

  function Pruned(views: Views, now: real): (r: Views)
    requires views.Valid()
    ensures r.Valid() && |r.order| <= |views.order|
  {
    Dict(Unexpired(views.order, views.entries, now),
         map k | k in views.entries && views.entries[k].expires > now :: views.entries[k])
  }

  function Rendered(views: Views, limit: nat, key: Key, view: View, now: real): (r: Views)
    requires views.Valid() && 0 < limit
    ensures r.Valid()
  {
    var live := Pruned(views, now);
    var room := if |live.order| >= limit then live.Pop(live.order[0]) else live;
    room.Put(key, view)
  }

  function Bound(views: Views, key: Key, data: string, messageId: nat): (r: Views)
    requires views.Valid()
    ensures r.Valid()
  {
    if messageId != 0 && key in views.entries && "singit:" + views.entries[key].nonce + ":" <= data
    then views.Put(key, views.entries[key].(messageId := Some(messageId)))
    else views
  }

  function Claimed(views: Views, key: Key, messageId: nat, data: string, now: real): Option<(string, Source)> {
    if key !in views.entries then None
    else
      var view := views.entries[key];
      var parts := Split(data, ':');
      if view.expires <= now || view.messageId != Some(messageId) then None
      else if |parts| != 3 || parts[..2] != ["singit", view.nonce] || !AllDigits(parts[2]) then None
      else if Parse(parts[2]) >= |view.choices| then None
      else Some((view.choices[Parse(parts[2])], view.source))
  }

  /** Each button carries its place in row-major order. */
  ghost predicate Numbered(rows: seq<seq<string>>, markup: Markup, nonce: string) {
    && |rows| == |markup|
    && (forall r :: 0 <= r < |markup| ==> |rows[r]| == |markup[r]|)
    && (forall r, c :: 0 <= r < |markup| && 0 <= c < |markup[r]| ==>
        rows[r][c] == Payload(nonce, Offset(markup, r) + c))
  }

  /** The first half of `render`: the actions of the view and the callback data of the buttons. */
  method Number(markup: Markup, nonce: string) returns (choices: seq<string>, rows: seq<seq<string>>)
    ensures choices == Choices(markup) && Numbered(rows, markup, nonce)
  {
    choices, rows := [], [];
    for i := 0 to |markup|
      invariant |rows| == i && choices == Choices(markup[..i]) && |choices| == Offset(markup, i)
      invariant forall r :: 0 <= r < i ==> |rows[r]| == |markup[r]|
      invariant forall r, c :: 0 <= r < i && 0 <= c < |markup[r]| ==>
                rows[r][c] == Payload(nonce, Offset(markup, r) + c)
    {
      var buttons: seq<string> := [];
      ghost var above := choices;
      for column := 0 to |markup[i]|
        invariant |buttons| == column && choices == above + RowActions(markup[i])[..column]
        invariant forall c :: 0 <= c < column ==> buttons[c] == Payload(nonce, Offset(markup, i) + c)
      {
        buttons := buttons + [Payload(nonce, |choices|)];
        choices := choices + [markup[i][column].action];
      }
      assert markup[..i + 1][..i] == markup[..i];
      rows := rows + [buttons];
    }
    assert markup[..|markup|] == markup;
  }

  class ButtonSessions {
    const ttl: real
    const limit: nat
    var views: Views

    constructor (ttl: real, limit: nat)
      requires 0 < limit
      ensures this.ttl == ttl && this.limit == limit && views == Empty()
    {
      this.ttl, this.limit := ttl, limit;
      views := Empty();
    }

    ghost predicate Valid()
      reads this
    {
      views.Valid() && |views.order| <= limit && 0 < limit
    }

    method Invalidate(key: Key)
      requires Valid()
      modifies this
      ensures Valid() && views == old(views).Pop(key)
    {
      views := views.Pop(key);
    }

    /** Stores the view of a markup and returns the callback data of each button. */
    method Render(key: Key, markup: Markup, source: Source, nonce: string, now: real) returns (rows: seq<seq<string>>)
      requires Valid()
      modifies this
      ensures Valid()
      ensures views == Rendered(old(views), limit, key, View(nonce, Choices(markup), source, now + ttl, None), now)
      ensures Numbered(rows, markup, nonce)
    {
      var choices: seq<string>;
      choices, rows := Number(markup, nonce);
      views := Pruned(views, now);
      if |views.order| >= limit {
        views := views.Pop(views.order[0]);
      }
      views := views.Put(key, View(nonce, choices, source, now + ttl, None));
    }

    /** `data` is the callback data of the markup's first button. */
    method Bind(key: Key, data: string, messageId: nat)
      requires Valid()
      modifies this
      ensures Valid() && views == Bound(old(views), key, data, messageId)
    {
      if messageId == 0 {
        return;
      }
      if key in views.entries {
        var view := views.entries[key];
        if "singit:" + view.nonce + ":" <= data {
          views := views.Put(key, view.(messageId := Some(messageId)));
        }
      }
    }

    method Claim(key: Key, messageId: nat, data: string, now: real) returns (claimed: Option<(string, Source)>)
      requires Valid()
      modifies this
      ensures Valid() && claimed == Claimed(old(views), key, messageId, data, now)
      ensures views == if claimed.Some? then old(views).Pop(key) else old(views)
    {
      if key !in views.entries {
        return None;
      }
      var view := views.entries[key];
      if view.expires <= now || view.messageId != Some(messageId) {
        return None;
      }
      var parts := Split(data, ':');
      if |parts| != 3 || parts[..2] != ["singit", view.nonce] || !AllDigits(parts[2]) {
        return None;
      }
      var index := Parse(parts[2]);
      if index >= |view.choices| {
        return None;
      }
      views := views.Pop(key);
      return Some((view.choices[index], view.source));
    }
  }

  // ----- Exactly which payloads can be claimed -----

  ghost predicate Names(data: string, nonce: string, index: nat) {
    exists digits: string :: AllDigits(digits) && Parse(digits) == index && data == Join(["singit", nonce, digits], ':')
  }

  /** A claim succeeds iff the stored view is unexpired, bound to the message, and the payload carries its
      nonce and the number of one of its choices; it returns that choice. */
  lemma ClaimExact(views: Views, key: Key, messageId: nat, data: string, now: real, action: string, source: Source)
    requires key in views.entries ==> ':' !in views.entries[key].nonce
    ensures Claimed(views, key, messageId, data, now) == Some((action, source)) <==>
            && key in views.entries
            && var view := views.entries[key];
            && now < view.expires && view.messageId == Some(messageId) && source == view.source
            && exists index: nat :: index < |view.choices| && Names(data, view.nonce, index)
                && action == view.choices[index]
  {
    if key in views.entries {
      var view := views.entries[key];
      var parts := Split(data, ':');
      JoinSplit(data, ':');
      if Claimed(views, key, messageId, data, now).Some? {
        assert parts == ["singit", view.nonce, parts[2]];
        assert Names(data, view.nonce, Parse(parts[2]));
      }
      forall index: nat | Names(data, view.nonce, index)
        ensures |parts| == 3 && parts[..2] == ["singit", view.nonce] && AllDigits(parts[2]) && Parse(parts[2]) == index
      {
        var digits :| AllDigits(digits) && Parse(digits) == index && data == Join(["singit", view.nonce, digits], ':');
        assert ':' !in digits;
        SplitJoin(["singit", view.nonce, digits], ':');
      }
    }
  }

  lemma PayloadText(nonce: string, index: nat)
    ensures Payload(nonce, index) == "singit" + [':'] + (nonce + [':'] + Print(index))
    ensures "singit:" + nonce + ":" <= Payload(nonce, index)
  {
    var parts := ["singit", nonce, Print(index)];
    assert parts[1..] == [nonce, Print(index)] && parts[1..][1..] == [Print(index)];
    assert Join(parts[1..], ':') == nonce + [':'] + Print(index);
    assert Payload(nonce, index) == ("singit:" + nonce + ":") + Print(index);
  }

  /** A view just rendered and bound to its message by a payload with its nonce. */
  lemma BoundView(views: Views, limit: nat, key: Key, view: View, now: real, data: string, messageId: nat)
    requires views.Valid() && 0 < limit && messageId != 0 && "singit:" + view.nonce + ":" <= data
    ensures var bound := Bound(Rendered(views, limit, key, view, now), key, data, messageId);
            key in bound.entries && bound.entries[key] == view.(messageId := Some(messageId))
  {
  }

  /** The payload of a choice's number claims that choice. */
  lemma PayloadClaims(views: Views, key: Key, messageId: nat, index: nat, now: real)
    requires key in views.entries
    requires var view := views.entries[key];
             ':' !in view.nonce && now < view.expires && view.messageId == Some(messageId) && index < |view.choices|
    ensures var view := views.entries[key];
            Claimed(views, key, messageId, Payload(view.nonce, index), now) == Some((view.choices[index], view.source))
  {
    var view := views.entries[key];
    ParsePrint(index);
    SplitJoin(["singit", view.nonce, Print(index)], ':');
  }

  /** Rendered, bound by its first button's data: the button at (row, column) claims exactly that cell's action. */
  lemma CellRoundTrip(views: Views, limit: nat, key: Key, markup: Markup, rows: seq<seq<string>>, view: View,
                      rendered: real, messageId: nat, row: nat, column: nat, now: real)
    requires views.Valid() && 0 < limit && messageId != 0 && now < view.expires
    requires ':' !in view.nonce && view.choices == Choices(markup) && Numbered(rows, markup, view.nonce)
    requires row < |markup| && column < |markup[row]| && markup[0] != []
    ensures var bound := Bound(Rendered(views, limit, key, view, rendered), key, rows[0][0], messageId);
            Claimed(bound, key, messageId, rows[row][column], now) == Some((markup[row][column].action, view.source))
  {
    hide Claimed, Bound, Rendered, Offset, Choices, Payload;
    PayloadText(view.nonce, Offset(markup, 0) + 0);
    assert rows[0][0] == Payload(view.nonce, Offset(markup, 0) + 0);
    BoundView(views, limit, key, view, rendered, rows[0][0], messageId);
    ChoiceAt(markup, row, column);
    PayloadClaims(Bound(Rendered(views, limit, key, view, rendered), key, rows[0][0], messageId),
                  key, messageId, Offset(markup, row) + column, now);
  }

  // ----- Capabilities are conserved over every run -----

  datatype Event =
    | DoRender(key: Key, markup: Markup, source: Source, nonce: string, now: real)
    | DoBind(key: Key, data: string, messageId: nat)
    | DoInvalidate(key: Key)
    | DoClaim(key: Key, messageId: nat, data: string, now: real)

  function Step(views: Views, ttl: real, limit: nat, e: Event): (r: Views)
    requires views.Valid() && 0 < limit
    ensures r.Valid()
  {
    match e
    case DoRender(key, markup, source, nonce, now) =>
      Rendered(views, limit, key, View(nonce, Choices(markup), source, now + ttl, None), now)
    case DoBind(key, data, messageId) => Bound(views, key, data, messageId)
    case DoInvalidate(key) => views.Pop(key)
    case DoClaim(key, messageId, data, now) =>
      if Claimed(views, key, messageId, data, now).Some? then views.Pop(key) else views
  }

  ghost function Holders(views: Views, nonce: string): set<Key> {
    set k | k in views.entries && views.entries[k].nonce == nonce
  }

  /** How often a claim of this nonce succeeds in a run. */
  ghost function Wins(views: Views, ttl: real, limit: nat, events: seq<Event>, nonce: string): nat
    requires views.Valid() && 0 < limit
    decreases |events|
  {
    if events == [] then 0
    else
      var e := events[0];
      (if WonBy(views, e, nonce) then 1 else 0)
      + Wins(Step(views, ttl, limit, e), ttl, limit, events[1..], nonce)
  }

  function Renders(events: seq<Event>, nonce: string): nat {
    if events == [] then 0
    else (if events[0].DoRender? && events[0].nonce == nonce then 1 else 0) + Renders(events[1..], nonce)
  }

  lemma SmallerSet<T>(a: set<T>, b: set<T>)
    requires a <= b
    ensures |a| <= |b|
  {
    if a != b {
      assert b == a + (b - a);
    }
  }

  lemma RenderedHolders(views: Views, limit: nat, key: Key, view: View, now: real, nonce: string)
    requires views.Valid() && 0 < limit
    ensures Holders(Rendered(views, limit, key, view, now), nonce)
         <= (Holders(views, nonce) - {key}) + if view.nonce == nonce then {key} else {}
  {
  }

  lemma OtherHolders(views: Views, key: Key, data: string, messageId: nat, nonce: string)
    requires views.Valid()
    ensures Holders(Bound(views, key, data, messageId), nonce) == Holders(views, nonce)
    ensures Holders(views.Pop(key), nonce) == Holders(views, nonce) - {key}
  {
  }

  predicate WonBy(views: Views, e: Event, nonce: string) {
    e.DoClaim? && Claimed(views, e.key, e.messageId, e.data, e.now).Some? && views.entries[e.key].nonce == nonce
  }

  lemma RenderConserves(views: Views, limit: nat, key: Key, view: View, now: real, nonce: string)
    requires views.Valid() && 0 < limit
    ensures |Holders(Rendered(views, limit, key, view, now), nonce)| <= |Holders(views, nonce)|
            + if view.nonce == nonce then 1 else 0
  {
    RenderedHolders(views, limit, key, view, now, nonce);
    var kept := Holders(views, nonce) - {key};
    SmallerSet(Holders(Rendered(views, limit, key, view, now), nonce),
               kept + if view.nonce == nonce then {key} else {});
    SmallerSet(kept, Holders(views, nonce));
  }

  lemma PopConserves(views: Views, key: Key, nonce: string)
    requires views.Valid()
    ensures var gone := if key in views.entries && views.entries[key].nonce == nonce then 1 else 0;
            |Holders(views.Pop(key), nonce)| == |Holders(views, nonce)| - gone
  {
    OtherHolders(views, key, "", 0, nonce);
    assert key in Holders(views, nonce) <==> key in views.entries && views.entries[key].nonce == nonce;
    if key !in Holders(views, nonce) { assert Holders(views, nonce) - {key} == Holders(views, nonce); }
  }

  lemma StepConserves(views: Views, ttl: real, limit: nat, e: Event, nonce: string)
    requires views.Valid() && 0 < limit
    ensures (if WonBy(views, e, nonce) then 1 else 0) + |Holders(Step(views, ttl, limit, e), nonce)|
         <= |Holders(views, nonce)| + if e.DoRender? && e.nonce == nonce then 1 else 0
  {
    match e
    case DoRender(key, markup, source, n, now) =>
      RenderConserves(views, limit, key, View(n, Choices(markup), source, now + ttl, None), now, nonce);
    case DoClaim(key, _, _, _) => PopConserves(views, key, nonce);
    case DoBind(key, data, messageId) => OtherHolders(views, key, data, messageId, nonce);
    case DoInvalidate(key) => PopConserves(views, key, nonce);
  }

  /** A nonce is claimed at most as often as it is held at the start or rendered during the run. So a view
      rendered once is claimable once, and never again after a claim, an invalidation, an eviction, an expiry
      that pruned it or a newer render took it out of the views. */
  lemma {:induction false} ClaimsConserved(views: Views, ttl: real, limit: nat, events: seq<Event>, nonce: string)
    requires views.Valid() && 0 < limit
    ensures Wins(views, ttl, limit, events, nonce) <= |Holders(views, nonce)| + Renders(events, nonce)
    decreases |events|
  {
    if events != [] {
      StepConserves(views, ttl, limit, events[0], nonce);
      ClaimsConserved(Step(views, ttl, limit, events[0]), ttl, limit, events[1..], nonce);
    }
  }

  /** What retires a nonce no other chat holds: claiming it, invalidating its chat, or rendering a newer view there. */
  lemma Retired(views: Views, ttl: real, limit: nat, e: Event, key: Key, nonce: string)
    requires views.Valid() && 0 < limit && Holders(views, nonce) <= {key}
    requires || (e.DoClaim? && e.key == key && Claimed(views, key, e.messageId, e.data, e.now).Some?)
             || (e.DoInvalidate? && e.key == key)
             || (e.DoRender? && e.key == key && e.nonce != nonce)
    ensures Holders(Step(views, ttl, limit, e), nonce) == {}
    ensures forall events, t: real :: Renders(events, nonce) == 0 ==>
              Wins(Step(views, ttl, limit, e), t, limit, events, nonce) == 0
  {
    var after := Step(views, ttl, limit, e);
    OtherHolders(views, key, "", 0, nonce);
    if e.DoRender? {
      RenderedHolders(views, limit, key, View(e.nonce, Choices(e.markup), e.source, e.now + ttl, None), e.now, nonce);
    }
    assert Holders(after, nonce) == {};
    forall events, t: real | Renders(events, nonce) == 0
      ensures Wins(after, t, limit, events, nonce) == 0
    {
      ClaimsConserved(after, t, limit, events, nonce);
    }
  }
}

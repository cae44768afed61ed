/** The purchase wizard of one user: message handlers, loaders and purchase workers that read and store
    the user's session at separate moments, in any interleaving and with any answer from the outside. */
module Wizards {
  import opened Machines
  import opened Options
  import opened Texts

  // ----- Orders -----

  datatype Product = Product(productId: string, id: string, fields: seq<string>)

  datatype Package = Package(packageId: string, id: string)

  datatype Token = Token(symbol: string, contract: string)

  /** What a purchase call carries. */
  datatype Order = Order(productId: string, packageId: string, country: string, recipient: map<string, string>,
                         token: Token)

  /** What a review screen is made from. */
  datatype Review = Review(product: Product, package: Package, country: string, recipient: map<string, string>,
                           token: Token)

  const NO_PRODUCT := Product("", "", [])
  const NO_PACKAGE := Package("", "")

  function ProductId(p: Product): string { Trim(if p.productId != "" then p.productId else p.id) }

  function PackageId(p: Package): string { Trim(if p.packageId != "" then p.packageId else p.id) }

  function OrderOf(r: Review): Order {
    Order(ProductId(r.product), PackageId(r.package), r.country, r.recipient, r.token)
  }

  /** The recipient fields the product asks for. */
  function Required(fields: seq<string>): seq<string> {
    if fields == [] then []
    else if Trim(fields[0]) == "" then Required(fields[1..])
    else [Trim(fields[0])] + Required(fields[1..])
  }

  function Missing(fields: seq<string>, recipient: map<string, string>): seq<string> {
    if fields == [] then []
    else if fields[0] in recipient then Missing(fields[1..], recipient)
    else [fields[0]] + Missing(fields[1..], recipient)
  }

  lemma {:induction false} MissingMeans(fields: seq<string>, recipient: map<string, string>, f: string)
    ensures f in Missing(fields, recipient) <==> f in fields && f !in recipient
  {
    if fields != [] { MissingMeans(fields[1..], recipient, f); }
  }

  ghost predicate Partial(fields: seq<string>, recipient: map<string, string>) {
    forall f :: f in recipient ==> f in fields && recipient[f] != ""
  }

  /** Exactly the required fields are filled in, none with nothing. */
  ghost predicate Complete(p: Product, recipient: map<string, string>) {
    Partial(Required(p.fields), recipient) && forall f :: f in Required(p.fields) ==> f in recipient
  }

  // ----- Sessions -----

  datatype Stage =
    | NoStage | Menu | AwaitingCountry | AwaitingSearch
    | SelectCategory | LoadingCatalog | LoadingSearch | SelectProduct | LoadingProduct | SelectPackage
    | AwaitingRecipient | LoadingTokens | SelectToken | Reviewing | Purchasing | AwaitingEmail

  /** The session dictionary; "", [], map[] and None stand for a missing key. `previous` is its
      returnSession or previousSession, `pending` the order that waits for a delivery email. */
  datatype Session = Session(
    stage: Stage, catalog: bool, country: string, product: Option<Product>, packages: seq<Package>,
    package: Option<Package>, fields: seq<string>, recipient: map<string, string>,
    tokens: seq<Token>, token: Option<Token>, previous: Option<Session>, pending: Option<Order>)

  function Fresh(stage: Stage, country: string): Session {
    Session(stage, false, country, None, [], None, [], map[], [], None, None, None)
  }

  const EMPTY := Fresh(NoStage, "")

  function ReviewOf(s: Session): Review
    requires s.token.Some?
  {
    Review(if s.product.Some? then s.product.value else NO_PRODUCT,
           if s.package.Some? then s.package.value else NO_PACKAGE, s.country, s.recipient, s.token.value)
  }

  /** A message after the button texts have been recognised; `number` is a choice from a list, from 0. */
  datatype Control = Back | ChangeCountry | BrowseCatalog | SearchProducts | RequestApproval | Other

  datatype Message = Message(control: Control, text: string, number: Option<nat>)

  // ----- Pieces of running code -----

  datatype Task =
    | Received(captured: Session, message: Message)   // the main handler holds the session it read
    | Handling(stage: Stage, message: Message)        // a stage's handler is about to read the session again
    | ProductReserving(country: string, back: Session)
    | ProductLoading(country: string, back: Session)
    | TokensOpening(product: Product, package: Package, country: string, recipient: map<string, string>)
    | TokensReserving(product: Product, package: Package, country: string, recipient: map<string, string>,
                      back: Session)
    | TokensLoading(product: Product, package: Package, country: string, recipient: map<string, string>, back: Session)
    | Storing(session: Session)
    | PurchaseReserving(order: Order)
    | PurchaseStoring(order: Order, back: Session)
    | PurchaseScheduling(order: Order, back: Session)
    | CheckingEmail(order: Order, tracked: bool)
    | Calling(order: Order, tracked: bool)
    | Succeeded(tracked: bool)
    | Failed(tracked: bool)
    | Done

  /** What the outside answers to a step: a generation was granted (or an email is missing), the generation
      is still current, the call failed (a gateway error or another one), and the loaded data; `country`
      is the listed country of a chosen product. */
  datatype Answer = Answer(yes: bool, current: bool, failed: bool, raised: bool, country: string,
                           product: Product, packages: seq<Package>, tokens: seq<Token>)

  /** A typed order: two identifiers, a country in capitals and a token selector, with the funded tokens that the
      wallet listed when it was read. */
  datatype Command = Command(productId: string, packageId: string, country: string, selector: string,
                             tokens: seq<Token>)

  predicate Denotes(selector: string, t: Token) {
    Lower(t.contract) == Lower(Trim(selector)) || Lower(t.symbol) == Lower(Trim(selector))
  }

  function Matching(tokens: seq<Token>, selector: string): seq<Token> {
    if tokens == [] then []
    else if Denotes(selector, tokens[0]) then [tokens[0]] + Matching(tokens[1..], selector)
    else Matching(tokens[1..], selector)
  }

  /** None when the command is not understood or its selector does not single out one token. */
  function CommandOrder(c: Command): Option<Order> {
    var matches := Matching(c.tokens, c.selector);
    if !Word(c.productId) || !Word(c.packageId) || !CountryCode(c.country) || |matches| != 1 then None
    else Some(Order(c.productId, c.packageId, c.country, map[], matches[0]))
  }

  predicate CountryCode(c: string) {
    |c| == 2 && 'A' <= c[0] <= 'Z' && 'A' <= c[1] <= 'Z'
  }

  /** A word of a typed command line. */
  predicate Word(w: string) {
    w != "" && forall i :: 0 <= i < |w| ==> !IsSpace(w[i])
  }

  lemma {:induction false} MatchingAt(tokens: seq<Token>, selector: string, k: nat)
    requires k < |tokens| && Denotes(selector, tokens[k])
    ensures tokens[k] in Matching(tokens, selector)
  {
    if k > 0 { MatchingAt(tokens[1..], selector, k - 1); }
  }

  lemma {:induction false} MatchingIs(tokens: seq<Token>, selector: string, t: Token)
    requires t in Matching(tokens, selector)
    ensures t in tokens && Denotes(selector, t)
  {
    if !(Denotes(selector, tokens[0]) && t == tokens[0]) { MatchingIs(tokens[1..], selector, t); }
  }

  /** A typed order carries the words as typed and the one listed token its selector denotes. */
  lemma CommandMeans(c: Command)
    requires CommandOrder(c).Some?
    ensures var o := CommandOrder(c).value;
            && o.productId == c.productId && o.packageId == c.packageId && o.country == c.country
                && o.recipient == map[]
            && o.token in c.tokens && Denotes(c.selector, o.token)
            && forall t :: t in c.tokens && Denotes(c.selector, t) ==> t == o.token
    ensures WellFormed(CommandOrder(c).value)
  {
    var matches := Matching(c.tokens, c.selector);
    MatchingIs(c.tokens, c.selector, matches[0]);
    forall t | t in c.tokens && Denotes(c.selector, t)
      ensures t == matches[0]
    {
      var k :| 0 <= k < |c.tokens| && c.tokens[k] == t;
      MatchingAt(c.tokens, c.selector, k);
    }
  }

  /** History: the reviews shown, those accepted with "Request approval", the typed orders. */
  datatype Ledger = Ledger(reviewed: set<Review>, accepted: set<Review>, typed: set<Command>)

  datatype Change = Keep | Store(session: Option<Session>)

  datatype Effect = Effect(task: Task, change: Change, ledger: Ledger, call: Option<Order>)

  function Go(task: Task, ledger: Ledger): Effect { Effect(task, Keep, ledger, None) }

  function Put(session: Option<Session>, task: Task,
               ledger: Ledger): Effect { Effect(task, Store(session), ledger, None) }

  function Chosen<T>(items: seq<T>, m: Message): Option<T> {
    if m.number.Some? && m.number.value < |items| then Some(items[m.number.value]) else None
  }

  // ----- The handlers -----

  /** The session that Back leads to; None is the main menu. */
  function BackFrom(s: Session, country: string): Option<Session> {
    match s.stage
    case LoadingCatalog => Some(Fresh(SelectCategory, country).(catalog := true))
    case LoadingSearch => Some(Fresh(AwaitingSearch, country))
    case LoadingProduct => if s.previous.Some? then s.previous else Some(Fresh(Menu, country))
    case LoadingTokens => if s.previous.Some? then s.previous else Some(Fresh(Menu, country))
    case SelectProduct => if s.catalog then Some(Fresh(SelectCategory, country).(catalog := true)) else None
    case SelectCategory => if s.catalog then Some(Fresh(Menu, country)) else None
    case _ => None
  }

  function Accept(s: Session, m: Message, l: Ledger): Effect {
    if m.control.RequestApproval? && s.product.Some? && s.package.Some? && s.country != "" && s.token.Some? then
      var review := ReviewOf(s);
      Go(PurchaseReserving(OrderOf(review)), l.(accepted := l.accepted + {review}))
    else
      Go(Done, l)
  }

  /** The main handler after the assistant declined the message. The browsing stages' handlers only store
      browsing sessions: those stores are Browse events. */
  function Dispatch(s: Session, m: Message, country: string, l: Ledger): Effect {
    match m.control
    case Back => Put(BackFrom(s, country), Done, l)
    case ChangeCountry => Put(Some(Fresh(AwaitingCountry, "")), Done, l)
    case BrowseCatalog => Put(Some(Fresh(SelectCategory, country).(catalog := true)), Done, l)
    case SearchProducts => Put(Some(Fresh(AwaitingSearch, country)), Done, l)
    case _ =>
      if s.stage in {SelectProduct, SelectPackage, AwaitingRecipient, SelectToken, AwaitingEmail}
          then Go(Handling(s.stage, m), l)
      else if s.stage == Reviewing then Accept(s, m, l)
      else Go(Done, l)
  }

  function ChoosePackage(s: Session, m: Message, country: string, l: Ledger): Effect {
    var package := Chosen(s.packages, m);
    if package.None? then Go(Done, l)
    else
      var product := if s.product.Some? then s.product.value else NO_PRODUCT;
      var where := if s.country != "" then s.country else country;
      var fields := Required(product.fields);
      if fields != [] then
        Go(Storing(Fresh(AwaitingRecipient, where).(product := Some(product), package := package, fields := fields)), l)
      else
        Go(TokensOpening(product, package.value, where, map[]), l)
  }

  function EnterRecipient(s: Session, m: Message, country: string, l: Ledger): Effect {
    var missing := Missing(s.fields, s.recipient);
    var value := Trim(m.text);
    if missing == [] || value == "" then Go(Done, l)
    else
      var recipient := s.recipient[missing[0] := value];
      if Missing(s.fields, recipient) != [] then Go(Storing(s.(recipient := recipient)), l)
      else Go(TokensOpening(if s.product.Some? then s.product.value else NO_PRODUCT,
                            if s.package.Some? then s.package.value else NO_PACKAGE,
                            if s.country != "" then s.country else country, recipient), l)
  }

  function ChooseToken(s: Session, m: Message, l: Ledger): Effect {
    var token := Chosen(s.tokens, m);
    if token.None? then Go(Done, l)
    else
      var review := s.(stage := Reviewing, token := token);
      Put(Some(review), Done, l.(reviewed := l.reviewed + {ReviewOf(review)}))
  }

  /** The order is rebuilt from what was kept with the pending purchase. */
  function Resumed(pending: Order, country: string): Order {
    OrderOf(Review(Product(pending.productId, "", []), Package(pending.packageId, ""),
                   if pending.country != "" then pending.country else country, pending.recipient, pending.token))
  }

  function EnterEmail(s: Session, country: string, a: Answer, l: Ledger): Effect {
    if s.pending.None? then Put(None, Done, l)
    else if a.failed || a.raised then Go(Done, l)
    else Go(PurchaseReserving(Resumed(s.pending.value, country)), l)
  }

  function Handle(stage: Stage, s: Session, m: Message, country: string, a: Answer, l: Ledger): Effect {
    match stage
    case SelectProduct => Go(if a.yes then ProductReserving(if CountryCode(a.country) then a.country else country, s)
                             else Done, l)
    case SelectPackage => ChoosePackage(s, m, country, l)
    case AwaitingRecipient => EnterRecipient(s, m, country, l)
    case SelectToken => ChooseToken(s, m, l)
    case AwaitingEmail => EnterEmail(s, country, a, l)
    case _ => Go(Done, l)
  }

  function LoadProduct(t: Task, a: Answer, l: Ledger): Effect
    requires t.ProductLoading?
  {
    if !a.current then Go(Done, l)
    else if a.failed || a.packages == [] then Put(Some(t.back), Done, l)
    else Put(Some(Fresh(SelectPackage, t.country).(product := Some(a.product), packages := a.packages)), Done, l)
  }

  function LoadTokens(t: Task, a: Answer, l: Ledger): Effect
    requires t.TokensLoading?
  {
    if !a.current then Go(Done, l)
    else if a.failed then Put(Some(t.back), Done, l)
    else if a.tokens == [] then Put(None, Done, l)
    else
      Put(Some(Fresh(SelectToken, t.country).(product := Some(t.product), package := Some(t.package),
                                             recipient := t.recipient, tokens := a.tokens)), Done, l)
  }

  /** Something the worker called raised: a gateway error goes to the restoring handler, anything else ends. */
  function CheckEmail(t: Task, a: Answer, l: Ledger): Effect
    requires t.CheckingEmail?
  {
    if a.failed then Go(Failed(t.tracked), l)
    else if a.raised then Go(Done, l)
    else if a.yes then Put(Some(Fresh(AwaitingEmail, "").(pending := Some(t.order))), Done, l)
    else Go(Calling(t.order, t.tracked), l)
  }

  function Purchase(t: Task, a: Answer, l: Ledger): Effect
    requires t.Calling?
  {
    Effect(if a.failed then Failed(t.tracked) else if a.raised then Done
           else Succeeded(t.tracked), Keep, l, Some(t.order))
  }

  /** After a gateway error the session before the purchase comes back, unless navigation took over. */
  function Recover(tracked: bool, s: Session, a: Answer, l: Ledger): Effect {
    if tracked && !a.current then Go(Done, l)
    else if !s.stage.Purchasing? then Go(Storing(s), l)
    else if s.previous.Some? then Go(Storing(s.previous.value), l)
    else Go(Done, l)
  }

  /** One atomic step of a task: at most one read and one store of the session. */
  function Act(session: Option<Session>, country: string, l: Ledger, t: Task, a: Answer): Effect {
    var s := if session.Some? then session.value else EMPTY;
    match t
    case Received(captured, m) => Dispatch(captured, m, country, l)
    case Handling(stage, m) => Handle(stage, s, m, country, a, l)
    case ProductReserving(where, back) =>
      if a.yes then Put(Some(Fresh(LoadingProduct, where).(previous := Some(back))), ProductLoading(where, back), l)
          else Go(Done, l)
    case ProductLoading(_, _) => LoadProduct(t, a, l)
    case TokensOpening(product, package, where, recipient) => Go(TokensReserving(product, package, where, recipient, s),
                                                                 l)
    case TokensReserving(product, package, where, recipient, back) =>
      if a.yes then
        Put(Some(Fresh(LoadingTokens, where).(product := Some(product), package := Some(package),
                                              recipient := recipient,
                                              previous := Some(back))),
            TokensLoading(product, package, where, recipient, back), l)
      else Go(Done, l)
    case TokensLoading(_, _, _, _, _) => LoadTokens(t, a, l)
    case Storing(value) => Put(Some(value), Done, l)
    case PurchaseReserving(order) => Go(if a.yes then PurchaseStoring(order, s) else Done, l)
    case PurchaseStoring(order, back) =>
      Put(Some(Fresh(Purchasing, "").(previous := Some(back))), PurchaseScheduling(order, back), l)
    case PurchaseScheduling(order, back) =>
      if a.raised then Put(Some(back), Done, l) else Go(CheckingEmail(order, true), l)
    case CheckingEmail(_, _) => CheckEmail(t, a, l)
    case Calling(_, _) => Purchase(t, a, l)
    case Succeeded(tracked) => if tracked && !a.current then Go(Done, l) else Put(None, Done, l)
    case Failed(tracked) => Recover(tracked, s, a, l)
    case Done => Go(Done, l)
  }

  // ----- Runs -----

  datatype Call = Call(task: nat, order: Order)

  datatype State = State(session: Option<Session>, chosen: Option<string>, tasks: seq<Task>, ledger: Ledger,
                         calls: seq<Call>)

  const INITIAL := State(None, None, [], Ledger({}, {}, {}), [])

  const DEFAULT_COUNTRY := "CZ"

  function CountryOf(st: State): string {
    if st.chosen.Some? then st.chosen.value else DEFAULT_COUNTRY
  }

  /** Sessions that catalogue browsing and the assistant store on their own account. */
  predicate Browsing(s: Session) {
    s == Fresh(s.stage, s.country).(catalog := s.catalog)
    && s.stage in {Menu, AwaitingCountry, AwaitingSearch, SelectCategory, LoadingCatalog, LoadingSearch, SelectProduct}
  }

  datatype Event =
    | Receive(message: Message)
    | Type(command: Command)
    | Browse(session: Option<Session>)
    | AssistantRestores(captured: nat)   // the classifier failed: the loading session a task captured is left
    | SetCountry(country: string)
    | Proceed(task: nat, answer: Answer)

  function Applied(st: State, i: nat, e: Effect): State
    requires i < |st.tasks|
  {
    State(if e.change.Store? then e.change.session else st.session, st.chosen, st.tasks[i := e.task], e.ledger,
          if e.call.Some? then st.calls + [Call(i, e.call.value)] else st.calls)
  }

  function Step(st: State, e: Event): State {
    match e
    case Receive(m) =>
      if st.session.None? || st.session.value == EMPTY then st
      else st.(tasks := st.tasks + [Received(st.session.value, m)])
    case Type(command) =>
      if CommandOrder(command).None? then st
      else st.(tasks := st.tasks + [CheckingEmail(CommandOrder(command).value, false)],
               ledger := st.ledger.(typed := st.ledger.typed + {command}))
    case Browse(s) =>
      if s.None? || Browsing(s.value) then st.(session := s) else st
    case AssistantRestores(i) =>
      if i < |st.tasks| && st.tasks[i].Received? && st.tasks[i].captured.stage == LoadingProduct
          && st.tasks[i].captured.previous.Some?
      then st.(session := st.tasks[i].captured.previous)
      else st
    case SetCountry(c) =>
      if CountryCode(c) then st.(chosen := Some(c)) else st
    case Proceed(i, a) =>
      if i < |st.tasks| then Applied(st, i, Act(st.session, CountryOf(st), st.ledger, st.tasks[i], a)) else st
  }

  function Run(st: State, events: seq<Event>): State {
    Fold(Step, st, events)
  }

  // ----- What every session and every piece of code holds -----

  predicate WellFormed(o: Order) {
    Trimmed(o.productId) && Trimmed(o.packageId) && o.country != ""
  }

  /** An order the user asked for: accepted on its review screen, or typed out. */
  ghost predicate Asked(l: Ledger, o: Order) {
    (exists r :: r in l.accepted && o == OrderOf(r)) || (exists c :: c in l.typed && CommandOrder(c) == Some(o))
  }

  ghost predicate Ready(s: Session) {
    s.product.Some? && s.package.Some? && s.country != "" && Complete(s.product.value, s.recipient)
  }

  ghost predicate SoundHere(s: Session, l: Ledger) {
    && (s.tokens != [] ==> Ready(s))
    && (s.fields != [] ==> s.product.Some? && s.package.Some? && s.country != ""
                           && s.fields == Required(s.product.value.fields) && Partial(s.fields, s.recipient))
    && (s.stage == Reviewing ==> s.token.Some? && Ready(s) && ReviewOf(s) in l.reviewed)
    && (s.pending.Some? ==> WellFormed(s.pending.value) && Asked(l, s.pending.value))
  }

  ghost predicate Sound(s: Session, l: Ledger) {
    SoundHere(s, l) && (s.previous.Some? ==> Sound(s.previous.value, l))
  }

  ghost predicate SoundTask(t: Task, l: Ledger) {
    match t
    case Received(captured, _) => Sound(captured, l)
    case Handling(_, _) => true
    case ProductReserving(_, back) => Sound(back, l)
    case ProductLoading(_, back) => Sound(back, l)
    case TokensOpening(product, package, country, recipient) => country != "" && Complete(product, recipient)
    case TokensReserving(product, package, country, recipient, back) => country != "" && Complete(product, recipient)
        && Sound(back, l)
    case TokensLoading(product, package, country, recipient, back) => country != "" && Complete(product, recipient)
        && Sound(back, l)
    case Storing(s) => Sound(s, l)
    case PurchaseReserving(order) => WellFormed(order) && Asked(l, order)
    case PurchaseStoring(order, back) => WellFormed(order) && Asked(l, order) && Sound(back, l)
    case PurchaseScheduling(order, back) => WellFormed(order) && Asked(l, order) && Sound(back, l)
    case CheckingEmail(order, _) => WellFormed(order) && Asked(l, order)
    case Calling(order, _) => WellFormed(order) && Asked(l, order)
    case Succeeded(_) => true
    case Failed(_) => true
    case Done => true
  }

  ghost predicate SoundLedger(l: Ledger) {
    && l.accepted <= l.reviewed
    && forall r :: r in l.reviewed ==> r.country != "" && Complete(r.product, r.recipient)
  }

  predicate Within(l: Ledger, m: Ledger) {
    l.reviewed <= m.reviewed && l.accepted <= m.accepted && l.typed <= m.typed
  }

  lemma {:induction false} SoundGrows(s: Session, l: Ledger, m: Ledger)
    requires Sound(s, l) && Within(l, m)
    ensures Sound(s, m)
  {
    if s.previous.Some? { SoundGrows(s.previous.value, l, m); }
  }

  lemma SoundTaskGrows(t: Task, l: Ledger, m: Ledger)
    requires SoundTask(t, l) && Within(l, m)
    ensures SoundTask(t, m)
  {
    match t
    case Received(captured, _) => SoundGrows(captured, l, m);
    case Storing(s) => SoundGrows(s, l, m);
    case ProductReserving(_, back) => SoundGrows(back, l, m);
    case ProductLoading(_, back) => SoundGrows(back, l, m);
    case TokensReserving(_, _, _, _, back) => SoundGrows(back, l, m);
    case TokensLoading(_, _, _, _, back) => SoundGrows(back, l, m);
    case PurchaseStoring(_, back) => SoundGrows(back, l, m);
    case PurchaseScheduling(_, back) => SoundGrows(back, l, m);
    case _ =>
  }

  /** What a step may do: history only grows, all it leaves behind is sound, it calls only for an asked order. */
  ghost predicate SoundEffect(l: Ledger, e: Effect) {
    && Within(l, e.ledger) && SoundLedger(e.ledger) && SoundTask(e.task, e.ledger)
    && (e.change.Store? && e.change.session.Some? ==> Sound(e.change.session.value, e.ledger))
    && (e.call.Some? ==> Asked(l, e.call.value))
  }

  lemma ReviewedIsWellFormed(r: Review)
    requires r.country != ""
    ensures WellFormed(OrderOf(r))
  {
    TrimTwice(if r.product.productId != "" then r.product.productId else r.product.id);
    TrimTwice(if r.package.packageId != "" then r.package.packageId else r.package.id);
  }

  lemma AcceptSound(s: Session, m: Message, l: Ledger)
    requires Sound(s, l) && SoundLedger(l) && s.stage == Reviewing
    ensures SoundEffect(l, Accept(s, m, l))
  {
    var e := Accept(s, m, l);
    if e.task.PurchaseReserving? {
      assert ReviewOf(s) in e.ledger.accepted;
      ReviewedIsWellFormed(ReviewOf(s));
    }
  }

  lemma BrowsingSound(s: Session, l: Ledger)
    requires Browsing(s)
    ensures Sound(s, l)
  {
  }

  lemma BackFromSound(s: Session, country: string, l: Ledger)
    requires Sound(s, l)
    ensures BackFrom(s, country).Some? ==> Sound(BackFrom(s, country).value, l)
  {
    var back := BackFrom(s, country);
    if back.Some? && back != s.previous { BrowsingSound(back.value, l); }
  }

  lemma GoSound(t: Task, l: Ledger)
    requires SoundTask(t, l) && SoundLedger(l)
    ensures SoundEffect(l, Go(t, l))
  {
  }

  lemma PutSound(s: Option<Session>, t: Task, l: Ledger)
    requires SoundTask(t, l) && SoundLedger(l) && (s.Some? ==> Sound(s.value, l))
    ensures SoundEffect(l, Put(s, t, l))
  {
  }

  /** A message that is no navigation button. */
  lemma EntrySound(s: Session, m: Message, country: string, l: Ledger)
    requires Sound(s, l) && SoundLedger(l) && (m.control.RequestApproval? || m.control.Other?)
    ensures SoundEffect(l, Dispatch(s, m, country, l))
  {
    if s.stage == Reviewing {
      AcceptSound(s, m, l);
    } else {
      GoSound(Done, l);
      GoSound(Handling(s.stage, m), l);
    }
  }

  lemma DispatchSound(s: Session, m: Message, country: string, l: Ledger)
    requires Sound(s, l) && SoundLedger(l)
    ensures SoundEffect(l, Dispatch(s, m, country, l))
  {
    if m.control.RequestApproval? || m.control.Other? {
      EntrySound(s, m, country, l);
    } else {
      BackFromSound(s, country, l);
      NavigationSound(s, m, country, l);
    }
  }

  lemma NavigationSound(s: Session, m: Message, country: string, l: Ledger)
    requires SoundLedger(l) && !m.control.RequestApproval? && !m.control.Other?
    requires BackFrom(s, country).Some? ==> Sound(BackFrom(s, country).value, l)
    ensures SoundEffect(l, Dispatch(s, m, country, l))
  {
    var next := match m.control
      case Back => BackFrom(s, country)
      case ChangeCountry => Some(Fresh(AwaitingCountry, ""))
      case BrowseCatalog => Some(Fresh(SelectCategory, country).(catalog := true))
      case _ => Some(Fresh(AwaitingSearch, country));
    if !m.control.Back? { BrowsingSound(next.value, l); }
    PutSound(next, Done, l);
  }

  /** A session that waits for the recipient, with nothing given yet. */
  lemma AskingSound(product: Product, package: Option<Package>, country: string, l: Ledger)
    requires package.Some? && country != ""
    ensures Sound(Fresh(AwaitingRecipient, country).(product := Some(product), package := package,
                                                     fields := Required(product.fields)), l)
  {
  }

  lemma OpeningSound(product: Product, package: Package, country: string, l: Ledger)
    requires Required(product.fields) == [] && country != ""
    ensures SoundTask(TokensOpening(product, package, country, map[]), l)
  {
  }

  lemma ChoosePackageSound(s: Session, m: Message, country: string, l: Ledger)
    requires SoundLedger(l) && country != ""
    ensures SoundEffect(l, ChoosePackage(s, m, country, l))
  {
    var package := Chosen(s.packages, m);
    if package.Some? {
      var product := if s.product.Some? then s.product.value else NO_PRODUCT;
      var where := if s.country != "" then s.country else country;
      if Required(product.fields) != [] {
        AskingSound(product, package, where, l);
      } else {
        OpeningSound(product, package.value, where, l);
      }
    }
    GoSound(ChoosePackage(s, m, country, l).task, l);
  }

  lemma EnterRecipientSound(s: Session, m: Message, country: string, l: Ledger)
    requires Sound(s, l) && SoundLedger(l) && country != ""
    ensures SoundEffect(l, EnterRecipient(s, m, country, l))
  {
    var missing := Missing(s.fields, s.recipient);
    var value := Trim(m.text);
    if missing != [] && value != "" {
      MissingMeans(s.fields, s.recipient, missing[0]);
      var recipient := s.recipient[missing[0] := value];
      assert Partial(s.fields, recipient);
      if Missing(s.fields, recipient) == [] {
        forall f | f in s.fields
          ensures f in recipient
        {
          MissingMeans(s.fields, recipient, f);
        }
      }
    }
  }

  lemma ChooseTokenSound(s: Session, m: Message, l: Ledger)
    requires Sound(s, l) && SoundLedger(l)
    ensures SoundEffect(l, ChooseToken(s, m, l))
  {
    var e := ChooseToken(s, m, l);
    if e.change.Store? {
      SoundGrows(s, l, e.ledger);
      assert Ready(s);
    }
  }

  /** What is reviewed is what the user picked: the numbered token of the session's own list beside the product,
      package, country and recipient it already held; and that package was the numbered one of its list. */
  lemma ReviewIsThePick(s: Session, m: Message, country: string, l: Ledger, r: Review)
    ensures r in ChooseToken(s, m, l).ledger.reviewed && r !in l.reviewed ==>
              && m.number.Some? && m.number.value < |s.tokens| && r.token == s.tokens[m.number.value]
              && r == ReviewOf(s.(token := Some(r.token)))
    ensures ChoosePackage(s, m, country, l).task != Done ==>
              && m.number.Some? && m.number.value < |s.packages|
              && var next := ChoosePackage(s, m, country, l).task;
              && (next.Storing? ==>
                    next.session.package == Some(s.packages[m.number.value]) && next.session.product == s.product)
              && (next.TokensOpening? ==> next.package == s.packages[m.number.value] && next.recipient == map[])
  {
  }

  /** The delivery-email detour gives back the order it set aside. */
  lemma DetourKeepsOrder(pending: Order, country: string)
    requires WellFormed(pending)
    ensures Resumed(pending, country) == pending
  {
    TrimmedStays(pending.productId);
    TrimmedStays(pending.packageId);
  }

  lemma ChooseProductSound(stage: Stage, s: Session, m: Message, country: string, a: Answer, l: Ledger)
    requires Sound(s, l) && SoundLedger(l) && stage !in {SelectPackage, AwaitingRecipient, SelectToken, AwaitingEmail}
    ensures SoundEffect(l, Handle(stage, s, m, country, a, l))
  {
    GoSound(Handle(stage, s, m, country, a, l).task, l);
  }

  lemma HandleSound(stage: Stage, s: Session, m: Message, country: string, a: Answer, l: Ledger)
    requires Sound(s, l) && SoundLedger(l) && country != ""
    ensures SoundEffect(l, Handle(stage, s, m, country, a, l))
  {
    match stage
    case SelectPackage => ChoosePackageSound(s, m, country, l);
    case AwaitingRecipient => EnterRecipientSound(s, m, country, l);
    case SelectToken => ChooseTokenSound(s, m, l);
    case AwaitingEmail => EnterEmailSound(s, country, a, l);
    case _ => ChooseProductSound(stage, s, m, country, a, l);
  }

  lemma EnterEmailSound(s: Session, country: string, a: Answer, l: Ledger)
    requires Sound(s, l) && SoundLedger(l) && country != ""
    ensures SoundEffect(l, EnterEmail(s, country, a, l))
  {
    if s.pending.Some? { DetourKeepsOrder(s.pending.value, country); }
  }

  lemma LoadProductSound(t: Task, a: Answer, l: Ledger)
    requires SoundTask(t, l) && SoundLedger(l) && t.ProductLoading?
    ensures SoundEffect(l, LoadProduct(t, a, l))
  {
  }

  lemma LoadTokensSound(t: Task, a: Answer, l: Ledger)
    requires SoundTask(t, l) && SoundLedger(l) && t.TokensLoading?
    ensures SoundEffect(l, LoadTokens(t, a, l))
  {
  }

  lemma CheckEmailSound(t: Task, a: Answer, l: Ledger)
    requires SoundTask(t, l) && SoundLedger(l) && t.CheckingEmail?
    ensures SoundEffect(l, CheckEmail(t, a, l))
  {
  }

  lemma RecoverSound(tracked: bool, s: Session, a: Answer, l: Ledger)
    requires Sound(s, l) && SoundLedger(l)
    ensures SoundEffect(l, Recover(tracked, s, a, l))
  {
  }

  predicate ReservesOrStores(t: Task) {
    t.ProductReserving? || t.TokensOpening? || t.TokensReserving? || t.Storing?
    || t.PurchaseReserving? || t.PurchaseStoring? || t.PurchaseScheduling?
  }

  /** What stands between a handler's reads and stores. */
  lemma ReservingSound(session: Option<Session>, country: string, l: Ledger, t: Task, a: Answer)
    requires SoundTask(t, l) && SoundLedger(l) && ReservesOrStores(t)
    requires session.Some? ==> Sound(session.value, l)
    ensures SoundEffect(l, Act(session, country, l, t, a))
  {
    if t.ProductReserving? || t.TokensReserving? {
      LoadingSound(session, country, l, t, a);
    }
  }

  lemma LoadingSound(session: Option<Session>, country: string, l: Ledger, t: Task, a: Answer)
    requires SoundTask(t, l) && SoundLedger(l) && (t.ProductReserving? || t.TokensReserving?)
    ensures SoundEffect(l, Act(session, country, l, t, a))
  {
    var e := Act(session, country, l, t, a);
    if e.change.Store? {
      PutSound(e.change.session, e.task, l);
    } else {
      GoSound(Done, l);
    }
  }

  /** Loaders and purchase workers. */
  lemma WorkerSound(session: Option<Session>, country: string, l: Ledger, t: Task, a: Answer)
    requires SoundTask(t, l) && SoundLedger(l) && !t.Received? && !t.Handling? && !ReservesOrStores(t)
    requires session.Some? ==> Sound(session.value, l)
    ensures SoundEffect(l, Act(session, country, l, t, a))
  {
    match t
    case ProductLoading(_, _) => LoadProductSound(t, a, l);
    case TokensLoading(_, _, _, _, _) => LoadTokensSound(t, a, l);
    case CheckingEmail(_, _) => CheckEmailSound(t, a, l);
    case Failed(tracked) => RecoverSound(tracked, if session.Some? then session.value else EMPTY, a, l);
    case _ =>
  }

  lemma ActSound(session: Option<Session>, country: string, l: Ledger, t: Task, a: Answer)
    requires SoundTask(t, l) && SoundLedger(l) && country != ""
    requires session.Some? ==> Sound(session.value, l)
    ensures SoundEffect(l, Act(session, country, l, t, a))
  {
    if t.Received? {
      DispatchSound(t.captured, t.message, country, l);
    } else if t.Handling? {
      HandleSound(t.stage, if session.Some? then session.value else EMPTY, t.message, country, a, l);
    } else if ReservesOrStores(t) {
      ReservingSound(session, country, l, t, a);
    } else {
      WorkerSound(session, country, l, t, a);
    }
  }

  // ----- Every run -----

  /** Tasks that may still call the gateway. */
  predicate BeforeCall(t: Task) {
    !t.Succeeded? && !t.Failed? && !t.Storing? && !t.Done?
  }

  ghost predicate Safe(st: State) {
    && SoundLedger(st.ledger)
    && (st.session.Some? ==> Sound(st.session.value, st.ledger))
    && (st.chosen.Some? ==> st.chosen.value != "")
    && (forall i :: 0 <= i < |st.tasks| ==> SoundTask(st.tasks[i], st.ledger))
    && (forall k :: 0 <= k < |st.calls| ==> Asked(st.ledger, st.calls[k].order))
  }

  /** One message, one command: no more than one purchase call. */
  ghost predicate OneCallEach(st: State) {
    && (forall k :: 0 <= k < |st.calls| ==> st.calls[k].task < |st.tasks| && !BeforeCall(st.tasks[st.calls[k].task]))
    && (forall j, k :: 0 <= j < k < |st.calls| ==> st.calls[j].task != st.calls[k].task)
  }

  lemma AskedGrows(l: Ledger, m: Ledger, o: Order)
    requires Asked(l, o) && Within(l, m)
    ensures Asked(m, o)
  {
  }

  lemma AppliedIsSafe(st: State, i: nat, e: Effect)
    requires Safe(st) && i < |st.tasks| && SoundEffect(st.ledger, e)
    ensures Safe(Applied(st, i, e))
  {
    var next := Applied(st, i, e);
    forall j | 0 <= j < |st.tasks|
      ensures SoundTask(next.tasks[j], next.ledger)
    {
      if j != i { SoundTaskGrows(st.tasks[j], st.ledger, e.ledger); }
    }
    forall k | 0 <= k < |next.calls|
      ensures Asked(next.ledger, next.calls[k].order)
    {
      AskedGrows(st.ledger, e.ledger, next.calls[k].order);
    }
    if e.change.Keep? && st.session.Some? { SoundGrows(st.session.value, st.ledger, e.ledger); }
  }

  lemma TypedEffectSound(l: Ledger, c: Command)
    requires SoundLedger(l) && CommandOrder(c).Some?
    ensures SoundEffect(l, Go(CheckingEmail(CommandOrder(c).value, false), l.(typed := l.typed + {c})))
  {
    CommandMeans(c);
    assert c in l.(typed := l.typed + {c}).typed;
  }

  lemma JoinIsSafe(st: State, task: Task)
    requires Safe(st) && SoundTask(task, st.ledger)
    ensures Safe(st.(tasks := st.tasks + [task]))
  {
  }

  lemma TypeIsSafe(st: State, c: Command)
    requires Safe(st)
    ensures Safe(Step(st, Type(c)))
  {
    if CommandOrder(c).Some? {
      var e := Go(CheckingEmail(CommandOrder(c).value, false), st.ledger.(typed := st.ledger.typed + {c}));
      TypedEffectSound(st.ledger, c);
      var base := st.(tasks := st.tasks + [Done]);
      JoinIsSafe(st, Done);
      AppliedIsSafe(base, |st.tasks|, e);
      assert Applied(base, |st.tasks|, e) == Step(st, Type(c));
    }
  }

  lemma ProceedIsSafe(st: State, i: nat, a: Answer)
    requires Safe(st)
    ensures Safe(Step(st, Proceed(i, a)))
  {
    if i < |st.tasks| {
      ActSound(st.session, CountryOf(st), st.ledger, st.tasks[i], a);
      AppliedIsSafe(st, i, Act(st.session, CountryOf(st), st.ledger, st.tasks[i], a));
    }
  }

  lemma StepIsSafe(st: State, e: Event)
    requires Safe(st)
    ensures Safe(Step(st, e))
  {
    match e
    case Type(c) => TypeIsSafe(st, c);
    case Proceed(i, a) => ProceedIsSafe(st, i, a);
    case Receive(m) => if st.session.Some? { JoinIsSafe(st, Received(st.session.value, m)); }
    case Browse(s) => if s.Some? && Browsing(s.value) { BrowsingSound(s.value, st.ledger); }
    case _ =>
  }

  lemma ActCallsOnce(session: Option<Session>, country: string, l: Ledger, t: Task, a: Answer)
    ensures var e := Act(session, country, l, t, a);
            && (e.call.Some? ==> BeforeCall(t) && !BeforeCall(e.task))
            && (!BeforeCall(t) ==> !BeforeCall(e.task))
  {
  }

  lemma AppliedCallsOnce(st: State, i: nat, e: Effect)
    requires OneCallEach(st) && i < |st.tasks|
    requires e.call.Some? ==> BeforeCall(st.tasks[i])
    requires e.call.Some? || !BeforeCall(st.tasks[i]) ==> !BeforeCall(e.task)
    ensures OneCallEach(Applied(st, i, e))
  {
  }

  lemma StepCallsOnce(st: State, e: Event)
    requires OneCallEach(st)
    ensures OneCallEach(Step(st, e))
  {
    if e.Proceed? && e.task < |st.tasks| {
      var effect := Act(st.session, CountryOf(st), st.ledger, st.tasks[e.task], e.answer);
      ActCallsOnce(st.session, CountryOf(st), st.ledger, st.tasks[e.task], e.answer);
      AppliedCallsOnce(st, e.task, effect);
    }
  }

  lemma {:induction false} RunIsSafe(st: State, events: seq<Event>)
    requires Safe(st) && OneCallEach(st)
    ensures Safe(Run(st, events)) && OneCallEach(Run(st, events))
    decreases |events|
  {
    if events != [] {
      StepIsSafe(st, events[0]);
      StepCallsOnce(st, events[0]);
      RunIsSafe(Step(st, events[0]), events[1..]);
    }
  }

  /** Over every run from start-up, whatever is answered and however the pieces interleave: each purchase
      call carries exactly an order shown on a review screen and accepted there, with every field the
      product requires filled in, or a typed order with the one token its selector denotes; and no message leads
      to two calls. */
  lemma PurchasesAreAsked(events: seq<Event>, k: nat)
    requires k < |Run(INITIAL, events).calls|
    ensures var st := Run(INITIAL, events);
            var call := st.calls[k];
            && ((exists c :: c in st.ledger.typed && CommandOrder(c) == Some(call.order))
                || exists r :: r in st.ledger.accepted && r in st.ledger.reviewed && call.order == OrderOf(r)
                    && Complete(r.product, r.recipient))
            && (forall j :: 0 <= j < |st.calls| && j != k ==> st.calls[j].task != call.task)
  {
    RunIsSafe(INITIAL, events);
    var st := Run(INITIAL, events);
    assert Asked(st.ledger, st.calls[k].order);
  }

  // ----- Any order can be placed -----

  /** One step of a task that does not call the gateway. */
  lemma Proceeds(st: State, i: nat, a: Answer, e: Effect) returns (t: State)
    requires Reachable(Step, INITIAL, st) && i < |st.tasks|
             && e == Act(st.session, CountryOf(st), st.ledger, st.tasks[i], a)
             && e.call.None?
    ensures Reachable(Step, INITIAL, t) && t.chosen == st.chosen && t.ledger == e.ledger && t.calls == st.calls
    ensures |t.tasks| == |st.tasks| && t.tasks[i] == e.task && t.tasks == st.tasks[i := e.task]
    ensures t.session == if e.change.Store? then e.change.session else st.session
  {
    t := Follows(Step, INITIAL, st, Proceed(i, a));
  }

  /** Everything goes well. */
  function Fine(product: Product, packages: seq<Package>, tokens: seq<Token>): Answer {
    Answer(true, true, false, false, "", product, packages, tokens)
  }

  const FIRST := Message(Other, "1", Some(0))

  /** The user picks the first of one listed product, whose details have one package. */
  lemma PicksProduct(product: Product, package: Package, country: string) returns (st: State)
    requires CountryCode(country)
    ensures Reachable(Step, INITIAL, st) && st.calls == [] && st.tasks == [Done] && st.ledger == INITIAL.ledger
    ensures st.session == Some(Fresh(SelectPackage, country).(product := Some(product), packages := [package]))
  {
    StartIsReachable(Step, INITIAL);
    var a := Fine(product, [package], []).(country := country);
    var listed := Some(Fresh(SelectProduct, country));
    st := Follows(Step, INITIAL, INITIAL, Browse(listed));
    st := Follows(Step, INITIAL, st, Receive(FIRST));
    st := Follows(Step, INITIAL, st, Proceed(0, a));
    assert st.tasks == [Handling(SelectProduct, FIRST)];
    st := Follows(Step, INITIAL, st, Proceed(0, a));
    st := Follows(Step, INITIAL, st, Proceed(0, a));
    st := Follows(Step, INITIAL, st, Proceed(0, a));
    assert st.tasks == [Done];
  }

  /** A message, and the steps of its handler up to the first that stores or hands on. */
  lemma Handles(st: State, m: Message, a: Answer) returns (t: State)
    requires Reachable(Step, INITIAL, st) && st.session.Some? && m.control.Other?
    requires st.session.value.stage in {SelectPackage, AwaitingRecipient, SelectToken, AwaitingEmail}
    ensures Reachable(Step, INITIAL, t) && t.chosen == st.chosen
    ensures var i := |st.tasks|;
            var e := Handle(st.session.value.stage, st.session.value, m, CountryOf(st), a, st.ledger);
            e.call.None? ==>
            && t.tasks == st.tasks + [e.task] && t.calls == st.calls && t.ledger == e.ledger
            && t.session == (if e.change.Store? then e.change.session else st.session)
  {
    var i := |st.tasks|;
    t := Follows(Step, INITIAL, st, Receive(m));
    t := Follows(Step, INITIAL, t, Proceed(i, a));
    assert t.tasks == st.tasks + [Handling(st.session.value.stage, m)] && t.session == st.session;
    t := Follows(Step, INITIAL, t, Proceed(i, a));
  }

  /** A message whose handler stores nothing and hands on to one more task. */
  lemma HandsOn(st: State, m: Message, task: Task) returns (t: State)
    requires Reachable(Step, INITIAL, st) && st.session.Some? && m.control.Other?
    requires st.session.value.stage in {SelectPackage, AwaitingRecipient, SelectToken, AwaitingEmail}
    requires Handle(st.session.value.stage, st.session.value, m, CountryOf(st), Fine(NO_PRODUCT, [], []), st.ledger)
          == Go(task, st.ledger)
    ensures Reachable(Step, INITIAL, t) && t.chosen == st.chosen && t.ledger == st.ledger && t.calls == st.calls
    ensures t.tasks == st.tasks + [task] && t.session == st.session
  {
    t := Handles(st, m, Fine(NO_PRODUCT, [], []));
  }

  /** A handler that keeps the session for its last step stores it. */
  lemma Stores(st: State, s: Session) returns (t: State)
    requires Reachable(Step, INITIAL, st) && st.tasks != [] && st.tasks[|st.tasks| - 1] == Storing(s)
    ensures Reachable(Step, INITIAL, t) && t.ledger == st.ledger && t.calls == st.calls && t.session == Some(s)
  {
    t := Proceeds(st, |st.tasks| - 1, Fine(NO_PRODUCT, [], []), Put(Some(s), Done, st.ledger));
  }

  lemma {:induction false} MissingShrinks(fields: seq<string>, given: map<string, string>, f: string, v: string)
    ensures |Missing(fields, given[f := v])| <= |Missing(fields, given)|
    ensures f in Missing(fields, given) ==> |Missing(fields, given[f := v])| < |Missing(fields, given)|
  {
    if fields != [] { MissingShrinks(fields[1..], given, f, v); }
  }

  /** What a user can type: every required field and no other, each value stripped and not empty. */
  ghost predicate Typable(r: Review) {
    && CountryCode(r.country) && Complete(r.product, r.recipient)
    && forall f :: f in r.recipient ==> Trimmed(r.recipient[f])
  }

  /** Waiting for the rest of the recipient. */
  function Asking(r: Review, given: map<string, string>): Session {
    Fresh(AwaitingRecipient, r.country).(product := Some(r.product), package := Some(r.package),
                                         fields := Required(r.product.fields), recipient := given)
  }

  lemma EnteringIs(s: Session, m: Message, country: string, l: Ledger)
    requires Missing(s.fields, s.recipient) != [] && Trim(m.text) != ""
    requires s.product.Some? && s.package.Some? && s.country != ""
    ensures var more := s.recipient[Missing(s.fields, s.recipient)[0] := Trim(m.text)];
            EnterRecipient(s, m, country, l)
            == Go(if Missing(s.fields, more) != [] then Storing(s.(recipient := more))
                  else TokensOpening(s.product.value, s.package.value, s.country, more), l)
  {
  }

  lemma FillingIs(r: Review, given: map<string, string>, f: string, country: string, a: Answer, l: Ledger)
    requires Missing(Required(r.product.fields), given) != [] && f == Missing(Required(r.product.fields), given)[0]
    requires f in r.recipient && Trim(r.recipient[f]) == r.recipient[f] != "" && r.country != ""
    ensures Handle(AwaitingRecipient, Asking(r, given), FIRST.(text := r.recipient[f]), country, a, l)
         == Go(Filled(r, given[f := r.recipient[f]]), l)
  {
    EnteringIs(Asking(r, given), FIRST.(text := r.recipient[f]), country, l);
  }

  /** After a field: the next one, or the payment tokens. */
  function Filled(r: Review, more: map<string, string>): Task {
    if Missing(Required(r.product.fields), more) != [] then Storing(Asking(r, more))
    else TokensOpening(r.product, r.package, r.country, more)
  }

  /** What was given so far is what the order says. */
  ghost predicate Agrees(given: map<string, string>, r: Review) {
    forall f :: f in given ==> f in r.recipient && given[f] == r.recipient[f]
  }

  lemma MissingIsTypable(r: Review, given: map<string, string>)
    requires Typable(r) && Missing(Required(r.product.fields), given) != []
    ensures var f := Missing(Required(r.product.fields), given)[0];
            f in r.recipient && Trim(r.recipient[f]) == r.recipient[f] != "" && r.country != ""
  {
    var f := Missing(Required(r.product.fields), given)[0];
    MissingMeans(Required(r.product.fields), given, f);
    TrimmedStays(r.recipient[f]);
  }

  /** The user fills in the first missing field. */
  lemma FillsOne(st: State, r: Review, given: map<string, string>, f: string) returns (t: State)
    requires Reachable(Step, INITIAL, st) && st.session == Some(Asking(r, given))
    requires Missing(Required(r.product.fields), given) != [] && f == Missing(Required(r.product.fields), given)[0]
    requires f in r.recipient && Trim(r.recipient[f]) == r.recipient[f] != "" && r.country != ""
    ensures Reachable(Step, INITIAL, t) && t.ledger == st.ledger && t.calls == st.calls
    ensures t.tasks == st.tasks + [Filled(r, given[f := r.recipient[f]])]
  {
    FillingIs(r, given, f, CountryOf(st), Fine(NO_PRODUCT, [], []), st.ledger);
    t := HandsOn(st, FIRST.(text := r.recipient[f]), Filled(r, given[f := r.recipient[f]]));
  }

  /** The user fills in the missing fields one by one. */
  lemma {:induction false} FillsIn(st: State, r: Review, given: map<string, string>) returns (t: State)
    requires Reachable(Step, INITIAL, st) && Typable(r) && st.session == Some(Asking(r, given)) && Agrees(given, r)
    requires Missing(Required(r.product.fields), given) != []
    ensures Reachable(Step, INITIAL, t) && t.ledger == st.ledger && t.calls == st.calls
    ensures t.tasks != [] && t.tasks[|t.tasks| - 1] == TokensOpening(r.product, r.package, r.country, r.recipient)
    decreases |Missing(Required(r.product.fields), given)|
  {
    hide Missing, Required;
    var f := Missing(Required(r.product.fields), given)[0];
    MissingIsTypable(r, given);
    var more := given[f := r.recipient[f]];
    t := FillsOne(st, r, given, f);
    if Missing(Required(r.product.fields), more) != [] {
      MissingShrinks(Required(r.product.fields), given, f, r.recipient[f]);
      t := Stores(t, Asking(r, more));
      t := FillsIn(t, r, more);
    } else {
      AllGiven(r, more);
    }
  }

  lemma AllGiven(r: Review, given: map<string, string>)
    requires Complete(r.product, r.recipient) && Missing(Required(r.product.fields), given) == [] && Agrees(given, r)
    ensures given == r.recipient
  {
    forall f | f in r.recipient
      ensures f in given
    {
      MissingMeans(Required(r.product.fields), given, f);
    }
  }

  lemma ChoosingIs(r: Review, country: string, a: Answer, l: Ledger)
    requires CountryCode(r.country)
    ensures var s := Fresh(SelectPackage, r.country).(product := Some(r.product), packages := [r.package]);
            Handle(SelectPackage, s, FIRST, country, a, l)
            == Go(if Required(r.product.fields) != [] then Storing(Asking(r, map[]))
                  else TokensOpening(r.product, r.package, r.country, map[]), l)
  {
  }

  /** From the chosen package to the payment tokens, with all the recipient fields in between. */
  lemma GivesRecipient(st: State, r: Review) returns (t: State)
    requires Reachable(Step, INITIAL, st) && Typable(r)
    requires st.session == Some(Fresh(SelectPackage, r.country).(product := Some(r.product), packages := [r.package]))
    ensures Reachable(Step, INITIAL, t) && t.ledger == st.ledger && t.calls == st.calls
    ensures t.tasks != [] && t.tasks[|t.tasks| - 1] == TokensOpening(r.product, r.package, r.country, r.recipient)
  {
    ChoosingIs(r, CountryOf(st), Fine(NO_PRODUCT, [], []), st.ledger);
    if Required(r.product.fields) == [] {
      AllGiven(r, map[]);
      t := HandsOn(st, FIRST, TokensOpening(r.product, r.package, r.country, map[]));
    } else {
      t := HandsOn(st, FIRST, Storing(Asking(r, map[])));
      t := StartsFilling(t, r);
    }
  }

  lemma StartsFilling(st: State, r: Review) returns (t: State)
    requires Reachable(Step, INITIAL, st) && Typable(r) && Required(r.product.fields) != []
    requires st.tasks != [] && st.tasks[|st.tasks| - 1] == Storing(Asking(r, map[]))
    ensures Reachable(Step, INITIAL, t) && t.ledger == st.ledger && t.calls == st.calls
    ensures t.tasks != [] && t.tasks[|t.tasks| - 1] == TokensOpening(r.product, r.package, r.country, r.recipient)
  {
    t := Stores(st, Asking(r, map[]));
    FirstIsMissing(Required(r.product.fields));
    t := FillsIn(t, r, map[]);
  }

  lemma FirstIsMissing(fields: seq<string>)
    requires fields != []
    ensures Missing(fields, map[]) != []
  {
  }

  /** The payment tokens arrive. */
  lemma LoadsTokens(st: State, r: Review) returns (t: State)
    requires Reachable(Step, INITIAL, st) && st.tasks != []
             && st.tasks[|st.tasks| - 1] == TokensOpening(r.product, r.package, r.country, r.recipient)
    ensures Reachable(Step, INITIAL, t) && t.ledger == st.ledger && t.calls == st.calls
    ensures t.session == Some(Fresh(SelectToken, r.country).(product := Some(r.product), package := Some(r.package),
                                                             recipient := r.recipient, tokens := [r.token]))
  {
    var i := |st.tasks| - 1;
    var a := Fine(NO_PRODUCT, [], [r.token]);
    var back := if st.session.Some? then st.session.value else EMPTY;
    var loading := Fresh(LoadingTokens, r.country).(product := Some(r.product), package := Some(r.package),
                                                    recipient := r.recipient, previous := Some(back));
    var loaded := Fresh(SelectToken, r.country).(product := Some(r.product), package := Some(r.package),
                                                 recipient := r.recipient, tokens := [r.token]);
    t := Proceeds(st, i, a, Go(TokensReserving(r.product, r.package, r.country, r.recipient, back), st.ledger));
    t := Proceeds(t, i, a, Put(Some(loading), TokensLoading(r.product, r.package, r.country, r.recipient, back),
                               st.ledger));
    t := Proceeds(t, i, a, Put(Some(loaded), Done, st.ledger));
  }

  /** The purchase gets its generation and its worker. */
  lemma StartsPurchase(st: State, order: Order) returns (t: State)
    requires Reachable(Step, INITIAL, st) && st.tasks != [] && st.tasks[|st.tasks| - 1] == PurchaseReserving(order)
    ensures Reachable(Step, INITIAL, t) && t.chosen == st.chosen && t.ledger == st.ledger && t.calls == st.calls
    ensures |t.tasks| == |st.tasks| && t.tasks[|st.tasks| - 1] == CheckingEmail(order, true)
  {
    var i := |st.tasks| - 1;
    var granted := Fine(NO_PRODUCT, [], []);
    var back := if st.session.Some? then st.session.value else EMPTY;
    var buying := Fresh(Purchasing, "").(previous := Some(back));
    t := Proceeds(st, i, granted, Go(PurchaseStoring(order, back), st.ledger));
    t := Proceeds(t, i, granted, Put(Some(buying), PurchaseScheduling(order, back), st.ledger));
    t := Proceeds(t, i, granted, Go(CheckingEmail(order, true), st.ledger));
  }

  /** The worker asks for the delivery email. */
  lemma AsksForEmail(st: State, order: Order) returns (t: State)
    requires Reachable(Step, INITIAL, st) && st.tasks != [] && st.tasks[|st.tasks| - 1] == CheckingEmail(order, true)
    ensures Reachable(Step, INITIAL, t) && t.chosen == st.chosen && t.ledger == st.ledger && t.calls == st.calls
    ensures t.session == Some(Fresh(AwaitingEmail, "").(pending := Some(order)))
  {
    var e := Proceed(|st.tasks| - 1, Fine(NO_PRODUCT, [], []));
    t := Follows(Step, INITIAL, st, e);
  }

  /** The worker has the email and places the order. */
  lemma Places(st: State, order: Order) returns (t: State)
    requires Reachable(Step, INITIAL, st) && st.tasks != [] && st.tasks[|st.tasks| - 1] == CheckingEmail(order, true)
    ensures Reachable(Step, INITIAL, t) && t.ledger == st.ledger && t.calls == st.calls + [Call(|st.tasks| - 1, order)]
  {
    var i := |st.tasks| - 1;
    var a := Fine(NO_PRODUCT, [], []).(yes := false);
    t := Proceeds(st, i, a, Go(Calling(order, true), st.ledger));
    t := Follows(Step, INITIAL, t, Proceed(i, a));
  }

  lemma Accepts(st: State) returns (t: State)
    requires Reachable(Step, INITIAL, st) && st.session.Some?
    requires var s := st.session.value;
             s.stage == Reviewing && s.product.Some? && s.package.Some? && s.country != "" && s.token.Some?
    ensures Reachable(Step, INITIAL, t) && t.chosen == st.chosen && t.calls == st.calls && t.session == st.session
    ensures var review := ReviewOf(st.session.value);
            && t.tasks == st.tasks + [PurchaseReserving(OrderOf(review))]
            && t.ledger == st.ledger.(accepted := st.ledger.accepted + {review})
  {
    var i := |st.tasks|;
    var m := Message(RequestApproval, "Request approval", None);
    t := Follows(Step, INITIAL, st, Receive(m));
    t := Follows(Step, INITIAL, t, Proceed(i, Fine(NO_PRODUCT, [], [])));
  }

  /** Any order a user can type in gets as far as its review screen. */
  lemma IsReviewed(r: Review) returns (st: State)
    requires Typable(r)
    ensures Reachable(Step, INITIAL, st) && st.calls == [] && st.ledger == Ledger({r}, {}, {})
    ensures st.session.Some? && st.session.value.stage == Reviewing && st.session.value.token == Some(r.token)
    ensures ReviewOf(st.session.value) == r && st.session.value.product.Some? && st.session.value.package.Some?
  {
    st := PicksProduct(r.product, r.package, r.country);
    st := GivesRecipient(st, r);
    st := LoadsTokens(st, r);
    st := Handles(st, FIRST, Fine(NO_PRODUCT, [], []));
  }

  /** The email arrives and the order set aside goes on. */
  lemma Resumes(st: State, order: Order) returns (t: State)
    requires Reachable(Step, INITIAL, st) && st.session == Some(Fresh(AwaitingEmail, "").(pending := Some(order)))
             && WellFormed(order)
    ensures Reachable(Step, INITIAL, t) && t.ledger == st.ledger && t.calls == st.calls
    ensures t.tasks == st.tasks + [PurchaseReserving(order)]
  {
    DetourKeepsOrder(order, CountryOf(st));
    t := Handles(st, FIRST, Fine(NO_PRODUCT, [], []));
  }

  /** An accepted order is set aside for the delivery email. */
  lemma IsSetAside(r: Review) returns (st: State)
    requires Typable(r)
    ensures Reachable(Step, INITIAL, st) && st.calls == [] && st.ledger == Ledger({r}, {r}, {})
    ensures st.session == Some(Fresh(AwaitingEmail, "").(pending := Some(OrderOf(r))))
  {
    st := IsReviewed(r);
    st := Accepts(st);
    st := StartsPurchase(st, OrderOf(r));
    st := AsksForEmail(st, OrderOf(r));
  }

  /** The partner of the safety theorem: any order a user can type in can be reviewed, accepted and placed,
      through the delivery-email detour, and is then the only call. */
  lemma AnyOrderCanBePlaced(r: Review) returns (st: State)
    requires Typable(r)
    ensures Reachable(Step, INITIAL, st)
    ensures st.ledger == Ledger({r}, {r}, {}) && |st.calls| == 1 && st.calls[0].order == OrderOf(r)
  {
    ReviewedIsWellFormed(r);
    st := IsSetAside(r);
    st := Resumes(st, OrderOf(r));
    st := StartsPurchase(st, OrderOf(r));
    st := Places(st, OrderOf(r));
  }
}

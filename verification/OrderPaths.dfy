/** What the transition table means for an order: the runs that follow it, the paths they make, which of its paths happen, and the
    stored history column. */
module OrderPaths {
  import opened Results
  import opened Roles
  import I = Inventory
  import opened Orders

  // ---------- runs that follow the table ----------

  /** The event goes through the table: it is made in the name of a user without a bypassing role, by an entry
      point that checks the status itself, or it asks for a status the table allows. */
  predicate Follows(w: World, e: Event) {
    (e.UpdateStatus? || e.RecordStockOut? || (e.UpdatePayment? && e.requested.ToSecured?) || e.ConfirmByFarmer?) ==>
      !Bypasses(w, ActorOf(w, e)) || (e.o < |w.orders| ==> StatusOf(w, e) in Next(w.orders[e.o].status))
  }

  predicate AllFollow(w: World, events: seq<Event>)
    decreases |events|
  {
    events == [] || (Follows(w, events[0]) && AllFollow(Step(w, events[0]), events[1..]))
  }

  /** ORDER_PLACED followed by the history is a path in the table. */
  predicate Path(history: seq<Change>) {
    history == []
    || (history[|history| - 1].status in Next(StatusAfter(history[..|history| - 1])) && Path(history[..|history| - 1]))
  }

  /** How many changes can still follow. */
  function Rank(s: Status): nat {
    match s
    case ORDER_PLACED => 10
    case ORDER_ACCEPTED => 9
    case PAYMENT_SECURED => 8
    case READY_TO_PROCESS => 7
    case PROCESSING => 6
    case READY_FOR_COLLECTION => 5
    case RELEASED => 4
    case COLLECTED => 3
    case IN_TRANSIT => 6
    case AT_AGGREGATION => 5
    case QUALITY_CHECKED => 4
    case QUALITY_APPROVED => 3
    case QUALITY_REJECTED => 1
    case OUT_FOR_DELIVERY => 2
    case DELIVERED => 1
    case _ => 0
  }

  lemma RankFalls(s: Status, t: Status)
    requires t in Next(s)
    ensures Rank(t) < Rank(s)
  {
  }

  /** A path has at most ten changes, and visits no status twice. */
  lemma {:induction false} PathBounds(history: seq<Change>, s: Status)
    requires Path(history)
    ensures |history| + Rank(StatusAfter(history)) <= 10
    ensures TimesEntered(history, s) <= if Rank(StatusAfter(history)) <= Rank(s) && !s.ORDER_PLACED? then 1 else 0
  {
    hide Next, Rank;
    if history == [] {
      assert Rank(ORDER_PLACED) == 10 by { RankOfFirst(); }
    } else {
      var rest := history[..|history| - 1];
      PathBounds(rest, s);
      RankFalls(StatusAfter(rest), StatusAfter(history));
      RankOfFirst();
    }
  }

  lemma RankOfFirst()
    ensures Rank(ORDER_PLACED) == 10
    ensures forall s :: Rank(s) <= 10
  {
  }

  /** The order is where its history says, and the history is a path. */
  predicate OnTable(order: Order) {
    HistoryAgrees(order) && Path(order.history)
  }

  /** A change by a user without a bypassing role is one of the table's. */
  lemma UpdateFollows(w: World, o: nat, s: Status, actor: nat)
    requires o < |w.orders| && UpdateStatusStep(w, o, s, actor).0.orders != w.orders
    ensures s in Next(w.orders[o].status) || Bypasses(w, actor)
  {
    UpdateEffect(w, o, s, actor);
    hide Next, Deduct;
  }

  lemma StepFollows(w: World, e: Event, o: nat)
    requires Follows(w, e) && Concerns(e, o) && o < |w.orders| && Step(w, e).orders != w.orders
    ensures StatusOf(w, e) in Next(w.orders[o].status)
  {
    hide Check, Deduct;
    match e
    case UpdateStatus(_, s, actor) => UpdateFollows(w, o, s, actor);
    case RecordStockOut(_, actor) => UpdateFollows(w, o, StockOutStatus(w, o), actor);
    case UpdatePayment(_, requested) =>
      UpdateFollows(w.(payments := UpdatePaymentStep(w, o, requested).0.payments), o, PAYMENT_SECURED, ActorOf(w, e));
    case ConfirmByFarmer(_, confirmed, actor) =>
      UpdateFollows(w.(payments := ConfirmByFarmerStep(w, o, confirmed, actor).0.payments), o, READY_TO_PROCESS, actor);
    case _ =>
  }

  lemma StepKeepsTable(w: World, e: Event, o: nat)
    requires Follows(w, e) && o < |Step(w, e).orders|
    requires o < |w.orders| ==> OnTable(w.orders[o])
    ensures OnTable(Step(w, e).orders[o])
    ensures o < |w.orders| && Next(w.orders[o].status) == {} ==> Step(w, e).orders[o] == w.orders[o]
  {
    OrderAfter(w, e, o);
    hide Step, StatusOf, ActorOf, Next, Follows;
    if o < |w.orders| && Step(w, e).orders[o] != w.orders[o] {
      StepFollows(w, e, o);
      var history := Step(w, e).orders[o].history;
      assert history[..|history| - 1] == w.orders[o].history;
    }
  }

  lemma {:induction false} RunKeepsTable(w: World, events: seq<Event>, o: nat)
    requires AllFollow(w, events) && o < |Run(w, events).orders|
    requires o < |w.orders| ==> OnTable(w.orders[o])
    ensures OnTable(Run(w, events).orders[o])
    ensures o < |w.orders| && Next(w.orders[o].status) == {} ==> Run(w, events).orders[o] == w.orders[o]
    decreases |events|
  {
    if events != [] {
      hide Step, OnTable, Next, Follows;
      StepKeepsOrders(w, events[0]);
      if o < |Step(w, events[0]).orders| { StepKeepsTable(w, events[0], o); }
      RunKeepsTable(Step(w, events[0]), events[1..], o);
    }
  }

  /** On every table-following run, ORDER_PLACED followed by an order's history is a path in the table
      with at most ten changes and no status twice; hence the order is deducted from its batch at most
      once. */
  lemma TableRuns(roles: map<nat, Role>, listings: map<nat, real>, events: seq<Event>, o: nat, s: Status)
    requires AllAllowed(events) && AllFollow(Start(roles, listings), events)
    requires o < |Run(Start(roles, listings), events).orders|
    ensures var w := Run(Start(roles, listings), events);
            && Path(w.orders[o].history) && StatusAfter(w.orders[o].history) == w.orders[o].status
            && |w.orders[o].history| + Rank(w.orders[o].status) <= 10
            && TimesEntered(w.orders[o].history, s) <= 1
            && I.TimesProcessed(w.ledger.log, o) <= 1
  {
    EveryRun(roles, listings, events, o);
    RunKeepsTable(Start(roles, listings), events, o);
    hide Run, AllAllowed, AllFollow, Path, Rank, TimesEntered, I.TimesProcessed;
    var history := Run(Start(roles, listings), events).orders[o].history;
    PathBounds(history, s);
    PathBounds(history, PROCESSING);
  }

  predicate Terminal(s: Status) {
    s.COMPLETED? || s.CANCELLED? || s.DISPUTED? || s.REJECTED?
  }

  lemma TerminalIsLast(s: Status)
    requires Terminal(s)
    ensures Next(s) == {}
  {
  }

  /** A status without successors is never left on a table-following run. */
  lemma TerminalStays(w: World, events: seq<Event>, o: nat)
    requires AllFollow(w, events) && o < |w.orders| && OnTable(w.orders[o]) && Terminal(w.orders[o].status)
    ensures o < |Run(w, events).orders| && Run(w, events).orders[o] == w.orders[o]
  {
    hide Run, AllFollow, OnTable, Next, Terminal;
    TerminalIsLast(w.orders[o].status);
    RunKeepsOrders(w, events);
    RunKeepsTable(w, events, o);
  }

  /** A path of the table over statuses a row can hold. */
  predicate OpenPath(s: Status, path: seq<Status>)
    decreases |path|
  {
    path == [] || (path[0] in Next(s) && Stored(path[0]) && OpenPath(path[0], path[1..]))
  }

  /** The call that takes an order to `t`: the payment confirmations, the staff's entry points, the stock-out, the
      collection, and a direct change for the rest. Only staff can cross the payment gate. */
  function Link(order: Order, o: nat, t: Status, staff: nat): Event {
    match t
    case PAYMENT_SECURED => ConfirmPayment(o, order.total, true, order.buyer)
    case READY_TO_PROCESS => ConfirmByFarmer(o, true, order.farmer)
    case PROCESSING => StartProcessing(o, staff)
    case READY_FOR_COLLECTION => MarkReady(o, staff)
    case RELEASED => RecordStockOut(o, staff)
    case COLLECTED => MarkCollected(o, order.buyer)
    case IN_TRANSIT => UpdateStatus(o, t, staff)
    case _ => UpdateStatus(o, t, order.buyer)
  }

  function Links(order: Order, o: nat, path: seq<Status>, staff: nat): seq<Event> {
    if path == [] then [] else [Link(order, o, path[0], staff)] + Links(order, o, path[1..], staff)
  }

  function Statuses(history: seq<Change>): seq<Status> {
    seq(|history|, i requires 0 <= i < |history| => history[i].status)
  }

  /** The farmer has not confirmed the payment, and can do so as soon as the order is at PAYMENT_SECURED: if it is
      there already, the payment is secured and the buyer has confirmed it. */
  predicate Confirmable(w: World, o: nat)
    requires o < |w.orders|
  {
    && !FarmerSet(w, o)
    && (w.orders[o].status.PAYMENT_SECURED? ==> o in w.payments && w.payments[o].status.SECURED? && w.payments[o].confirmedBy.Some?)
  }

  lemma Predecessors(s: Status, t: Status)
    requires t in Next(s)
    ensures !t.ORDER_PLACED? && s != t
    ensures t.ORDER_ACCEPTED? ==> s.ORDER_PLACED?
    ensures t.PAYMENT_SECURED? ==> s.ORDER_PLACED? || s.ORDER_ACCEPTED?
    ensures t.READY_TO_PROCESS? || t.IN_TRANSIT? ==> s.PAYMENT_SECURED?
    ensures t.PROCESSING? ==> s.READY_TO_PROCESS?
    ensures t.READY_FOR_COLLECTION? ==> s.PROCESSING?
    ensures t.RELEASED? ==> s.READY_FOR_COLLECTION?
    ensures t.COLLECTED? ==> s.RELEASED?
  {
  }

  /** A change that the table allows, by a party, across the gate by staff. */
  lemma TableChange(w: World, o: nat, t: Status, actor: nat)
    requires o < |w.orders| && t in Next(w.orders[o].status) && Stored(t) && (t.PROCESSING? ==> !ShortOfStock(w, o))
    requires actor == w.orders[o].buyer || actor == w.orders[o].farmer || IsSystem(w, actor)
    requires t.IN_TRANSIT? ==> IsSystem(w, actor)
    ensures var (w', r) := UpdateStatusStep(w, o, t, actor);
            && r.Done? && w'.roles == w.roles && w'.payments == w.payments
            && w'.orders == w.orders[o := Changed(w.orders[o], t, actor)]
            && (!t.PROCESSING? ==> w'.listings == w.listings && w'.ledger == w.ledger)
  {
    hide Next;
  }

  lemma OneLink(w: World, o: nat, t: Status, staff: nat)
    requires o < |w.orders| && t in Next(w.orders[o].status) && Stored(t) && (t.PROCESSING? ==> !ShortOfStock(w, o))
    requires IsSystem(w, staff) && (t.READY_TO_PROCESS? ==> Confirmable(w, o))
    ensures var e := Link(w.orders[o], o, t, staff);
            && (!t.PROCESSING? ==> Step(w, e).listings == w.listings && Step(w, e).ledger == w.ledger)
            && Allowed(e) && Follows(w, e) && Step(w, e).roles == w.roles && Concerns(e, o)
            && Step(w, e).orders == w.orders[o := Changed(w.orders[o], t, ActorOf(w, e))]
            && (!t.READY_TO_PROCESS? && !FarmerSet(w, o) ==> Confirmable(Step(w, e), o))
  {
    var order := w.orders[o];
    var e := Link(order, o, t, staff);
    Predecessors(order.status, t);
    hide Next, UpdateStatusStep;
    match t
    case PAYMENT_SECURED => TableChange(PaymentWritten(w, e), o, t, order.buyer);
    case READY_TO_PROCESS => TableChange(PaymentWritten(w, e), o, t, order.farmer);
    case PROCESSING => TableChange(w, o, t, staff);
    case READY_FOR_COLLECTION => TableChange(w, o, t, staff);
    case RELEASED => TableChange(w, o, t, staff);
    case COLLECTED =>
    case IN_TRANSIT => TableChange(w, o, t, staff);
    case _ => TableChange(w, o, t, order.buyer);
  }

  /** A path never comes back to a status of the same or a higher rank. */
  lemma {:induction false} PathFalls(s: Status, path: seq<Status>, t: Status)
    requires OpenPath(s, path) && t in path
    ensures Rank(t) < Rank(s)
    decreases |path|
  {
    hide Next, Rank;
    RankFalls(s, path[0]);
    if t != path[0] {
      assert t in path[1..];
      PathFalls(path[0], path[1..], t);
    }
  }

  /** Conversely, such a path is the history of a table-following run of calls that exist: the buyer pays and
      collects, the farmer confirms, staff process, release and, at the gate, move the goods. Only a path through
      READY_TO_PROCESS needs a payment that its farmer can confirm, and only one through PROCESSING enough in the
      batch. */
  lemma {:induction false} EveryPathHappens(w: World, o: nat, path: seq<Status>, staff: nat)
    requires o < |w.orders| && OpenPath(w.orders[o].status, path) && (PROCESSING in path ==> !ShortOfStock(w, o))
    requires IsSystem(w, staff) && (READY_TO_PROCESS in path ==> Confirmable(w, o))
    ensures var events := Links(w.orders[o], o, path, staff);
            && AllAllowed(events) && AllFollow(w, events)
            && o < |Run(w, events).orders|
            && Statuses(Run(w, events).orders[o].history) == Statuses(w.orders[o].history) + path
    decreases |path|
  {
    var order := w.orders[o];
    if path == [] {
      assert Links(order, o, path, staff) == [];
    } else {
      hide Next, Links, Link, Step, Follows, Allowed, Confirmable, FarmerSet, ActorOf, Stored, ShortOfStock, Changed, Statuses;
      var e := Link(order, o, path[0], staff);
      var rest := Links(order, o, path[1..], staff);
      FirstLink(order, o, path, staff);
      OneLink(w, o, path[0], staff);
      var w1 := Step(w, e);
      var changed := Changed(order, path[0], ActorOf(w, e));
      ChangedKeeps(order, path[0], ActorOf(w, e));
      SameLinks(order, changed, o, path[1..], staff);
      StillConfirmable(w, w1, o, path);
      StillEnough(w, w1, o, path, ActorOf(w, e));
      EveryPathHappens(w1, o, path[1..], staff);
      assert path == [path[0]] + path[1..];
    }
  }

  lemma ChangedKeeps(order: Order, s: Status, actor: nat)
    ensures var changed := Changed(order, s, actor);
            && changed.buyer == order.buyer && changed.farmer == order.farmer && changed.total == order.total
            && changed.batch == order.batch && changed.listing == order.listing && changed.quantity == order.quantity
            && changed.status == s && Statuses(changed.history) == Statuses(order.history) + [s]
  {
  }

  lemma FirstLink(order: Order, o: nat, path: seq<Status>, staff: nat)
    requires path != []
    ensures var events := Links(order, o, path, staff);
            events != [] && events[0] == Link(order, o, path[0], staff) && events[1..] == Links(order, o, path[1..], staff)
  {
  }

  /** Until the deduction nothing is taken from the batch, and there is one deduction only. */
  lemma StillEnough(w: World, w': World, o: nat, path: seq<Status>, actor: nat)
    requires o < |w.orders| && path != [] && OpenPath(w.orders[o].status, path)
    requires w'.orders == w.orders[o := Changed(w.orders[o], path[0], actor)]
    requires !path[0].PROCESSING? ==> w'.ledger == w.ledger
    requires PROCESSING in path ==> !ShortOfStock(w, o)
    ensures PROCESSING in path[1..] ==> !ShortOfStock(w', o)
  {
    hide Next, Rank;
    if PROCESSING in path[1..] {
      PathFalls(path[0], path[1..], PROCESSING);
    }
  }

  /** The farmer confirms when the order goes to READY_TO_PROCESS, which a path does once. */
  lemma StillConfirmable(w: World, w': World, o: nat, path: seq<Status>)
    requires o < |w.orders| && o < |w'.orders| && path != [] && OpenPath(w.orders[o].status, path)
    requires READY_TO_PROCESS in path ==> Confirmable(w, o)
    requires !path[0].READY_TO_PROCESS? && !FarmerSet(w, o) ==> Confirmable(w', o)
    ensures READY_TO_PROCESS in path[1..] ==> Confirmable(w', o)
  {
    hide Next, Rank, FarmerSet;
    if READY_TO_PROCESS in path[1..] {
      PathFalls(path[0], path[1..], READY_TO_PROCESS);
    }
  }

  /** The links depend on the order's parties and total only. */
  lemma {:induction false} SameLinks(a: Order, b: Order, o: nat, path: seq<Status>, staff: nat)
    requires a.buyer == b.buyer && a.farmer == b.farmer && a.total == b.total
    ensures Links(a, o, path, staff) == Links(b, o, path, staff)
  {
    if path != [] { SameLinks(a, b, o, path[1..], staff); }
  }

  lemma Restocked(w: World, o: nat)
    requires Valid(w) && o < |w.orders|
    ensures var restock := Stock(I.StockIn(false, w.orders[o].batch, "", w.orders[o].quantity));
            var w' := Step(w, restock);
            && Allowed(restock) && Follows(w, restock) && !ShortOfStock(w', o)
            && w'.orders == w.orders && w'.payments == w.payments && w'.roles == w.roles
  {
    hide I.Valid;
    assert OrderOk(w, o);
    BatchesOk(w, w.orders[o].batch.GetOr(""));
  }

  /** The run realises the path: it exists, follows the table, and adds exactly the path to the order's history. */
  ghost predicate Realises(w: World, o: nat, path: seq<Status>, events: seq<Event>)
    requires o < |w.orders|
  {
    && AllAllowed(events) && AllFollow(w, events)
    && o < |Run(w, events).orders|
    && Statuses(Run(w, events).orders[o].history) == Statuses(w.orders[o].history) + path
  }

  /** The farmer can still come to confirm the payment: the farmer has not yet, and at PAYMENT_SECURED the buyer has, of
      a payment that is secured or can be secured again without a change of the order. */
  predicate CanBeConfirmed(w: World, o: nat)
    requires o < |w.orders|
  {
    && !FarmerSet(w, o)
    && (w.orders[o].status.PAYMENT_SECURED? ==>
          o in w.payments && w.payments[o].confirmedBy.Some?
          && (w.payments[o].status.SECURED? || !Bypasses(w, w.payments[o].payer)))
  }

  /** One more event in front of a run that leaves the order alone. */
  lemma RealisedAfter(w: World, e: Event, o: nat, path: seq<Status>, events: seq<Event>)
    requires o < |w.orders| && Allowed(e) && Follows(w, e) && Step(w, e).orders == w.orders
    requires Realises(Step(w, e), o, path, events)
    ensures Realises(w, o, path, [e] + events)
  {
    hide Step, Follows, Allowed, Statuses;
    assert ([e] + events)[0] == e && ([e] + events)[1..] == events;
  }

  /** Securing a payment of an order that is past it: only the payment changes. */
  lemma SecuredAgain(w: World, o: nat)
    requires o < |w.orders| && w.orders[o].status.PAYMENT_SECURED? && o in w.payments && !Bypasses(w, w.payments[o].payer)
    ensures var e := UpdatePayment(o, ToSecured);
            && Allowed(e) && Follows(w, e)
            && Step(w, e) == w.(payments := w.payments[o := w.payments[o].(status := SECURED)])
  {
    NeverItself(PAYMENT_SECURED);
    hide Next;
  }

  lemma PathIsRealised(w: World, o: nat, path: seq<Status>, staff: nat) returns (events: seq<Event>)
    requires o < |w.orders| && OpenPath(w.orders[o].status, path) && IsSystem(w, staff) && !ShortOfStock(w, o)
    requires READY_TO_PROCESS in path ==> CanBeConfirmed(w, o)
    ensures Realises(w, o, path, events)
  {
    hide OpenPath, Next, Step, Follows, Allowed, Links, Statuses;
    if READY_TO_PROCESS in path && !Confirmable(w, o) {
      SecuredAgain(w, o);
      var secure := UpdatePayment(o, ToSecured);
      EveryPathHappens(Step(w, secure), o, path, staff);
      events := Links(w.orders[o], o, path, staff);
      RealisedAfter(w, secure, o, path, events);
      events := [secure] + events;
    } else {
      EveryPathHappens(w, o, path, staff);
      events := Links(w.orders[o], o, path, staff);
    }
  }

  /** The farmer has confirmed; or the order is past the buyer's confirmation and lacks it, or its payment is not
      secured and can only be secured by a change that the table does not have. */
  predicate Blocked(w: World, o: nat)
    requires o < |w.orders|
  {
    || FarmerSet(w, o)
    || (!w.orders[o].status.ORDER_PLACED? && !w.orders[o].status.ORDER_ACCEPTED? && Unconfirmed(w, o))
  }

  predicate Unconfirmed(w: World, o: nat) {
    o in w.payments ==>
      w.payments[o].confirmedBy.None? || (!w.payments[o].status.SECURED? && Bypasses(w, w.payments[o].payer))
  }

  lemma BlockedIsRefused(w: World, o: nat, confirmed: bool, farmer: nat)
    requires o < |w.orders| && Blocked(w, o)
    ensures ConfirmByFarmerStep(w, o, confirmed, farmer).0 == w
  {
  }

  lemma StepKeepsUnconfirmed(w: World, e: Event, o: nat)
    requires o < |w.orders| && Follows(w, e) && Unconfirmed(w, o)
    requires !w.orders[o].status.ORDER_PLACED? && !w.orders[o].status.ORDER_ACCEPTED?
    ensures Unconfirmed(Step(w, e), o)
  {
    StepEffect(w, e);
    hide Next, UpdateStatusStep, ChangesAtMost;
    match e
    case CreatePayment(_, _, _) =>
    case UpdatePayment(_, _) =>
      PaymentCallEffect(w, e);
      if PAYMENT_SECURED in Next(w.orders[o].status) { Predecessors(w.orders[o].status, PAYMENT_SECURED); }
    case ConfirmPayment(_, _, _, _) => PaymentCallEffect(w, e);
    case ConfirmByFarmer(p, confirmed, farmer) =>
      PaymentCallEffect(w, e);
      if p == o { BlockedIsRefused(w, o, confirmed, farmer); }
    case _ => OtherCallsKeepPayments(w, e); hide Step;
  }

  /** A blocked order never enters READY_TO_PROCESS by following the table. */
  lemma StepKeepsBlocked(w: World, e: Event, o: nat)
    requires o < |w.orders| && Allowed(e) && Follows(w, e) && Blocked(w, o)
    ensures o < |Step(w, e).orders| && Blocked(Step(w, e), o)
    ensures TimesEntered(Step(w, e).orders[o].history, READY_TO_PROCESS) == TimesEntered(w.orders[o].history, READY_TO_PROCESS)
  {
    StepKeepsOrders(w, e);
    OrderAfter(w, e, o);
    if FarmerSet(w, o) { StepKeepsFarmer(w, e, o); } else { StepKeepsUnconfirmed(w, e, o); }
    if Step(w, e).orders[o] != w.orders[o] {
      StepFollows(w, e, o);
      Predecessors(w.orders[o].status, StatusOf(w, e));
      ChangedTimes(w.orders[o], StatusOf(w, e), ActorOf(w, e));
      if StatusOf(w, e).READY_TO_PROCESS? {
        ReadyByFarmer(w, e);
        BlockedIsRefused(w, o, e.confirmed, e.actor);
      }
    }
    hide Step, StatusOf, ActorOf, TimesEntered, FarmerSet, Changed, Allowed, Stored, Follows, Unconfirmed, Next;
  }

  lemma ReadyByFarmer(w: World, e: Event)
    requires Allowed(e) && !e.PlaceOrder? && !e.CreatePayment? && !e.Stock? && StatusOf(w, e).READY_TO_PROCESS?
    ensures e.ConfirmByFarmer?
  {
  }

  lemma {:induction false} RunKeepsBlocked(w: World, events: seq<Event>, o: nat)
    requires o < |w.orders| && AllAllowed(events) && AllFollow(w, events) && Blocked(w, o)
    ensures o < |Run(w, events).orders|
    ensures TimesEntered(Run(w, events).orders[o].history, READY_TO_PROCESS) == TimesEntered(w.orders[o].history, READY_TO_PROCESS)
    decreases |events|
  {
    if events != [] {
      hide Step, Allowed, Follows, Blocked, TimesEntered;
      StepKeepsBlocked(w, events[0], o);
      RunKeepsBlocked(Step(w, events[0]), events[1..], o);
    }
  }

  lemma {:induction false} StatusesCount(history: seq<Change>, s: Status)
    ensures multiset(Statuses(history))[s] == TimesEntered(history, s)
  {
    if history != [] {
      var rest, last := history[..|history| - 1], history[|history| - 1];
      StatusesCount(rest, s);
      assert Statuses(history) == Statuses(rest) + [last.status];
    }
  }

  /** READY_TO_PROCESS comes after PAYMENT_SECURED, and that after the first two statuses only. */
  lemma {:induction false} BeforeReady(s: Status, path: seq<Status>)
    requires OpenPath(s, path) && READY_TO_PROCESS in path
    ensures s.ORDER_PLACED? || s.ORDER_ACCEPTED? || s.PAYMENT_SECURED?
    decreases |path|
  {
    hide Next;
    Predecessors(s, path[0]);
    if !path[0].READY_TO_PROCESS? {
      assert READY_TO_PROCESS in path[1..];
      BeforeReady(path[0], path[1..]);
    }
  }

  lemma BlockedIsNotRealised(w: World, o: nat, path: seq<Status>, events: seq<Event>)
    requires o < |w.orders| && Blocked(w, o) && Realises(w, o, path, events)
    ensures READY_TO_PROCESS !in path
  {
    hide Run, AllAllowed, AllFollow, Blocked, Statuses, TimesEntered;
    RunKeepsBlocked(w, events, o);
    StatusesCount(w.orders[o].history, READY_TO_PROCESS);
    StatusesCount(Run(w, events).orders[o].history, READY_TO_PROCESS);
    assert multiset(path)[READY_TO_PROCESS] == 0;
  }

  /** From every order of a valid world, a path of the table is the history of a table-following run of calls that exist
      exactly when it avoids READY_TO_PROCESS or the farmer can still come to confirm the payment. A batch that is
      too small never stands in the way: it can be restocked. */
  lemma PathHappensIff(w: World, o: nat, path: seq<Status>, staff: nat)
    requires Valid(w) && o < |w.orders| && OpenPath(w.orders[o].status, path) && IsSystem(w, staff)
    ensures (exists events :: Realises(w, o, path, events)) <==> (READY_TO_PROCESS in path ==> CanBeConfirmed(w, o))
  {
    hide Realises, OpenPath, Next, ShortOfStock, Step, Follows, Allowed;
    if READY_TO_PROCESS in path && !CanBeConfirmed(w, o) {
      BeforeReady(w.orders[o].status, path);
      assert Blocked(w, o);
      forall events ensures !Realises(w, o, path, events) {
        if Realises(w, o, path, events) { BlockedIsNotRealised(w, o, path, events); }
      }
    } else {
      hide Valid;
      var restock := Stock(I.StockIn(false, w.orders[o].batch, "", w.orders[o].quantity));
      Restocked(w, o);
      var events := PathIsRealised(Step(w, restock), o, path, staff);
      RealisedAfter(w, restock, o, path, events);
    }
  }

  /** A run that follows the table and blocks its order: when the payment is secured by a status request before the buyer
      has confirmed it, the order is at PAYMENT_SECURED, where no later run takes it to READY_TO_PROCESS. */
  lemma SecuredTooEarly(roles: map<nat, Role>, listings: map<nat, real>, place: Event, amount: real, later: seq<Event>)
    requires place.PlaceOrder? && Allowed(place)
    ensures var events := [place, CreatePayment(0, amount, place.buyer), UpdatePayment(0, ToSecured)];
            var w := Run(Start(roles, listings), events);
            && AllAllowed(events) && AllFollow(Start(roles, listings), events)
            && |w.orders| == 1 && w.orders[0].status.PAYMENT_SECURED?
            && (AllAllowed(later) && AllFollow(w, later) ==>
                  |Run(w, later).orders| > 0 && TimesEntered(Run(w, later).orders[0].history, READY_TO_PROCESS) == 0)
  {
    var start := Start(roles, listings);
    var create, secure := CreatePayment(0, amount, place.buyer), UpdatePayment(0, ToSecured);
    var w1 := Step(start, place);
    assert w1 == start.(orders := [Placed(place)]) && Follows(start, place) && Allowed(create) && Allowed(secure);
    hide Step, Follows, Allowed, Blocked, FarmerSet;
    RecordedFirst(w1, 0, amount);
    hide TimesEntered, Placed;
    var w3 := Step(Step(w1, create), secure);
    ThreeEvents(start, place, create, secure);
    if AllAllowed(later) && AllFollow(w3, later) { RunKeepsBlocked(w3, later, 0); }
  }

  /** A payment recorded for a new order, and secured. */
  lemma RecordedFirst(w: World, o: nat, amount: real)
    requires o < |w.orders| && w.orders[o].status.ORDER_PLACED? && o !in w.payments
    ensures var order := w.orders[o];
            var create, secure := CreatePayment(o, amount, order.buyer), UpdatePayment(o, ToSecured);
            var w1 := Step(w, create);
            var w2 := Step(w1, secure);
            && Follows(w, create) && Follows(w1, secure)
            && |w2.orders| == |w.orders| && w2.orders[o].status.PAYMENT_SECURED? && Blocked(w2, o)
            && TimesEntered(w2.orders[o].history, READY_TO_PROCESS) == TimesEntered(order.history, READY_TO_PROCESS)
  {
    FirstSteps();
    ChangedTimes(w.orders[o], PAYMENT_SECURED, w.orders[o].buyer);
    hide TimesEntered;
    var order := w.orders[o];
    var payment := Payment(amount, PENDING, order.buyer, None, None);
    var w1 := Step(w, CreatePayment(o, amount, order.buyer));
    assert w1 == w.(payments := w.payments[o := payment]);
    hide Next, Check, Changed, ShortOfStock;
    TableChange(w1.(payments := w1.payments[o := payment.(status := SECURED)]), o, PAYMENT_SECURED, order.buyer);
    hide UpdateStatusStep;
  }

  lemma ThreeEvents(w: World, a: Event, b: Event, c: Event)
    requires Allowed(a) && Allowed(b) && Allowed(c)
    requires Follows(w, a) && Follows(Step(w, a), b) && Follows(Step(Step(w, a), b), c)
    ensures AllAllowed([a, b, c]) && AllFollow(w, [a, b, c])
    ensures Run(w, [a, b, c]) == Step(Step(Step(w, a), b), c)
  {
    hide Step, Follows, Allowed;
    assert [a, b, c][1..] == [b, c] && [b, c][1..] == [c] && [c][1..] == [];
    var w2 := Step(Step(w, a), b);
    assert AllFollow(w2, [c]) && Run(w2, [c]) == Step(w2, c) by { assert AllFollow(Step(w2, c), []) && Run(Step(w2, c), []) == Step(w2, c); }
    assert AllFollow(Step(w, a), [b, c]) && Run(Step(w, a), [b, c]) == Run(w2, [c]);
  }

  /** Ten changes do happen to every order, once placed. */
  lemma TenChangesHappen(roles: map<nat, Role>, listings: map<nat, real>, place: Event, staff: nat) returns (path: seq<Status>)
    requires place.PlaceOrder? && Allowed(place)
    requires IsSystem(Start(roles, listings), staff)
    ensures |path| == 10
    ensures var events := [place] + Links(Placed(place), 0, path, staff);
            && AllAllowed(events) && AllFollow(Start(roles, listings), events)
            && |Run(Start(roles, listings), events).orders| > 0
            && Statuses(Run(Start(roles, listings), events).orders[0].history) == path
  {
    var start := Start(roles, listings);
    var w := Step(start, place);
    assert w == start.(orders := [Placed(place)]) && Follows(start, place);
    path := LongestPath();
    hide OpenPath, Links, Next, Step, Follows, Allowed;
    EveryPathHappens(w, 0, path, staff);
    var links := Links(Placed(place), 0, path, staff);
    var events := [place] + links;
    assert events[0] == place && events[1..] == links;
    assert Statuses([]) + path == path;
  }

  /** By way of acceptance, processing, collection and delivery. */
  lemma LongestPath() returns (path: seq<Status>)
    ensures OpenPath(ORDER_PLACED, path) && |path| == 10
  {
    assert OpenPath(COMPLETED, []);
    hide OpenPath;
    path := Linked(DELIVERED, COMPLETED, []);
    path := Linked(OUT_FOR_DELIVERY, DELIVERED, path);
    path := Linked(COLLECTED, OUT_FOR_DELIVERY, path);
    path := Linked(RELEASED, COLLECTED, path);
    path := Linked(READY_FOR_COLLECTION, RELEASED, path);
    path := Linked(PROCESSING, READY_FOR_COLLECTION, path);
    path := Linked(READY_TO_PROCESS, PROCESSING, path);
    path := Linked(PAYMENT_SECURED, READY_TO_PROCESS, path);
    path := Linked(ORDER_ACCEPTED, PAYMENT_SECURED, path);
    path := Linked(ORDER_PLACED, ORDER_ACCEPTED, path);
  }

  /** One more status in front of a path. */
  lemma Linked(s: Status, t: Status, rest: seq<Status>) returns (path: seq<Status>)
    requires OpenPath(t, rest) && t in Next(s) && Stored(t)
    ensures path == [t] + rest && OpenPath(s, path)
  {
    path := [t] + rest;
    assert path[1..] == rest;
  }

  // ---------- the history column under the database's trigger ----------

  function EntryStatus(entry: Entry): Status {
    match entry
    case ByService(c) => c.status
    case ByTrigger(s) => s
  }

  function Pushed(column: seq<Entry>): seq<Change> {
    if column == [] then []
    else
      var last := column[|column| - 1];
      Pushed(column[..|column| - 1]) + if last.ByService? then [last.change] else []
  }

  lemma PushedAfter(column: seq<Entry>, entry: Entry)
    ensures Pushed(column + [entry]) == Pushed(column) + if entry.ByService? then [entry.change] else []
  {
    assert (column + [entry])[..|column|] == column;
  }

  /** The shape of a column with the trigger's entries. */
  lemma {:induction false} ColumnShape(history: seq<Change>)
    ensures Pushed(Column(history)) == history
    ensures history == [] <==> Column(history) == []
    ensures history != [] ==> EntryStatus(Column(history)[|Column(history)| - 1]) == StatusAfter(history)
    ensures Path(history) ==> |Column(history)| == 2 * |history|
  {
    if history != [] {
      var rest, last := history[..|history| - 1], history[|history| - 1];
      ColumnShape(rest);
      assert rest + [last] == history;
      ColumnAfter(rest, last);
      PushedAfter(Column(rest), ByService(last));
      PushedAfter(Column(rest) + [ByService(last)], ByTrigger(last.status));
      assert last.status in Next(StatusAfter(rest)) ==> last.status != StatusAfter(rest) by { NeverItself(StatusAfter(rest)); }
      hide Next, Pushed, Column;
      assert Column(rest) + [ByService(last)] + [] == Column(rest) + [ByService(last)];
    }
  }

  lemma NeverItself(s: Status)
    ensures s !in Next(s)
  {
  }

  /** On every run the trigger adds to the stored column but takes nothing from it: the pushed entries are the
      history, the last entry carries the status, and after a table-following run every change has two entries. */
  lemma StoredColumn(roles: map<nat, Role>, listings: map<nat, real>, events: seq<Event>, o: nat)
    requires AllAllowed(events) && o < |Run(Start(roles, listings), events).orders|
    ensures var order := Run(Start(roles, listings), events).orders[o];
            && Pushed(order.column) == order.history
            && (if order.column == [] then order.status.ORDER_PLACED?
                else EntryStatus(order.column[|order.column| - 1]) == order.status)
            && (AllFollow(Start(roles, listings), events) ==> |order.column| == 2 * |order.history|)
  {
    hide Run, AllAllowed, AllFollow, Column, Pushed, Path;
    EveryRun(roles, listings, events, o);
    ColumnShape(Run(Start(roles, listings), events).orders[o].history);
    if AllFollow(Start(roles, listings), events) {
      RunKeepsTable(Start(roles, listings), events, o);
    }
  }

  // ---------- a refused attempt to process ----------

  lemma {:induction false} RunOneMore(w: World, events: seq<Event>, e: Event)
    ensures Run(w, events + [e]) == Step(Run(w, events), e)
    decreases |events|
  {
    hide Step;
    if events == [] {
      assert events + [e] == [e] && [e][1..] == [];
    } else {
      assert (events + [e])[1..] == events[1..] + [e];
      RunOneMore(Step(w, events[0]), events[1..], e);
    }
  }

  lemma RunOfFour(w: World, a: Event, b: Event, c: Event, d: Event)
    ensures Run(w, [a, b, c, d]) == Step(Step(Step(Step(w, a), b), c), d)
  {
    hide Step;
    assert [] + [a] == [a] && [a] + [b] == [a, b] && [a, b] + [c] == [a, b, c] && [a, b, c] + [d] == [a, b, c, d];
    RunOneMore(w, [], a);
    RunOneMore(w, [a], b);
    RunOneMore(w, [a, b], c);
    RunOneMore(w, [a, b, c], d);
  }

  /** An order placed, its batch stocked with less than it asks for, paid and confirmed. */
  lemma PaidAndShort(roles: map<nat, Role>, listings: map<nat, real>, place: Event, stock: Event, pay: Event, confirm: Event)
    requires place == PlaceOrder(1, 2, 10.0, 500.0, Some("B"), Some(3), false) && roles == map[9 := ADMIN]
    requires stock == Stock(I.StockIn(false, Some("B"), "", 5.0))
    requires pay == ConfirmPayment(0, 500.0, true, 1) && confirm == ConfirmByFarmer(0, true, 2)
    ensures var w := Step(Step(Step(Step(Start(roles, listings), place), stock), pay), confirm);
            && w.roles == roles && w.listings == listings && w.ledger.items == map["B" := 5.0]
            && |w.orders| == 1 && w.orders[0].status.READY_TO_PROCESS?
            && w.orders[0].batch == Some("B") && w.orders[0].listing == Some(3) && w.orders[0].quantity == 10.0
  {
    PlacedAndStocked(roles, listings, place, "B", 5.0);
    var w2 := Step(Step(Start(roles, listings), place), stock);
    hide Step, Next;
    assert IsSystem(w2, 9);
    PaidAndConfirmed(w2, 0, 9);
  }

  /** The two confirmations of a new order leave listings and inventory alone. */
  lemma PaidAndConfirmed(w: World, o: nat, staff: nat)
    requires o < |w.orders| && w.orders[o].status.ORDER_PLACED? && !FarmerSet(w, o) && IsSystem(w, staff)
    ensures var order := w.orders[o];
            var w' := Step(Step(w, ConfirmPayment(o, order.total, true, order.buyer)), ConfirmByFarmer(o, true, order.farmer));
            && w'.roles == w.roles && w'.listings == w.listings && w'.ledger == w.ledger && |w'.orders| == |w.orders|
            && w'.orders[o].status.READY_TO_PROCESS? && w'.orders[o].batch == order.batch
            && w'.orders[o].listing == order.listing && w'.orders[o].quantity == order.quantity
  {
    FirstSteps();
    hide Next, Check, Step, Follows, Allowed, Changed, ShortOfStock, FarmerSet, Confirmable, ActorOf;
    LinkOf(w.orders[o], o, staff);
    OneLink(w, o, PAYMENT_SECURED, staff);
    hide Link;
    var pay := ConfirmPayment(o, w.orders[o].total, true, w.orders[o].buyer);
    var w1 := Step(w, pay);
    ChangedKeeps(w.orders[o], PAYMENT_SECURED, ActorOf(w, pay));
    LinkOf(w1.orders[o], o, staff);
    OneLink(w1, o, READY_TO_PROCESS, staff);
    var confirm := ConfirmByFarmer(o, true, w.orders[o].farmer);
    ChangedKeeps(w1.orders[o], READY_TO_PROCESS, ActorOf(w1, confirm));
  }

  lemma LinkOf(order: Order, o: nat, staff: nat)
    ensures Link(order, o, PAYMENT_SECURED, staff) == ConfirmPayment(o, order.total, true, order.buyer)
    ensures Link(order, o, READY_TO_PROCESS, staff) == ConfirmByFarmer(o, true, order.farmer)
  {
  }

  /** A run after which the batch is short, and the refused attempt still halves the listing. */
  lemma ShortBatchReducesListing() returns (roles: map<nat, Role>, listings: map<nat, real>, events: seq<Event>)
    ensures AllAllowed(events)
    ensures var w := Run(Start(roles, listings), events);
            var (w', r) := StartProcessingStep(w, 0, 9);
            && r.Refused? && w'.ledger == w.ledger && w'.orders == w.orders
            && w.listings == map[3 := 20.0] && w'.listings == map[3 := 10.0]
  {
    roles, listings := map[9 := ADMIN], map[3 := 20.0];
    var place := PlaceOrder(1, 2, 10.0, 500.0, Some("B"), Some(3), false);
    var stock := Stock(I.StockIn(false, Some("B"), "", 5.0));
    var pay, confirm := ConfirmPayment(0, 500.0, true, 1), ConfirmByFarmer(0, true, 2);
    events := [place, stock, pay, confirm];
    hide Run, Step, StartProcessingStep;
    RunOfFour(Start(roles, listings), place, stock, pay, confirm);
    PaidAndShort(roles, listings, place, stock, pay, confirm);
    ShortIsRefused(Run(Start(roles, listings), events), 9);
  }

  lemma PlacedAndStocked(roles: map<nat, Role>, listings: map<nat, real>, place: Event, batch: string, quantity: real)
    requires place.PlaceOrder?
    ensures var w := Step(Step(Start(roles, listings), place), Stock(I.StockIn(false, Some(batch), "", quantity)));
            && w.orders == [Placed(place)] && w.roles == roles && w.listings == listings && w.payments == map[]
            && w.ledger.items == map[batch := quantity]
  {
  }

  lemma FirstSteps()
    ensures PAYMENT_SECURED in Next(ORDER_PLACED) && READY_TO_PROCESS in Next(PAYMENT_SECURED)
  {
  }

  lemma ShortIsRefused(w: World, staff: nat)
    requires |w.orders| > 0 && w.orders[0].status.READY_TO_PROCESS? && IsSystem(w, staff) && ShortOfStock(w, 0)
    requires w.orders[0].listing == Some(3) && w.listings == map[3 := 20.0] && w.orders[0].quantity == 10.0
    ensures var (w', r) := StartProcessingStep(w, 0, staff);
            r.Refused? && w'.ledger == w.ledger && w'.orders == w.orders && w'.listings == map[3 := 10.0]
  {
    hide Next;
  }
}

/** What the order calls answer and write, said without the transition table: from which statuses each status is granted, to
    whom, what a change leaves alone, and what an order must have been through. */
module OrderLaws {
  import opened Results
  import opened Roles
  import I = Inventory
  import opened Orders
  import opened OrderPaths

  // ---------- who is granted what ----------

  /** Where an order must be for a party to be granted a status. A pickup goes from PAYMENT_SECURED through processing to
      COLLECTED, a transport through the quality check to OUT_FOR_DELIVERY. */
  function GrantedFrom(t: Status): set<Status> {
    match t
    case ORDER_ACCEPTED => {ORDER_PLACED}
    case PAYMENT_SECURED => {ORDER_PLACED, ORDER_ACCEPTED}
    case READY_TO_PROCESS => {PAYMENT_SECURED}
    case PROCESSING => {READY_TO_PROCESS}
    case READY_FOR_COLLECTION => {PROCESSING}
    case RELEASED => {READY_FOR_COLLECTION}
    case COLLECTED => {RELEASED}
    case IN_TRANSIT => {PAYMENT_SECURED}
    case AT_AGGREGATION => {IN_TRANSIT}
    case QUALITY_CHECKED => {AT_AGGREGATION}
    case QUALITY_APPROVED => {QUALITY_CHECKED}
    case QUALITY_REJECTED => {QUALITY_CHECKED}
    case OUT_FOR_DELIVERY => {COLLECTED, QUALITY_APPROVED}
    case DELIVERED => {OUT_FOR_DELIVERY}
    case COMPLETED => {COLLECTED, DELIVERED}
    case DISPUTED => {DELIVERED}
    case CANCELLED =>
      {ORDER_PLACED, ORDER_ACCEPTED, PAYMENT_SECURED, READY_TO_PROCESS, PROCESSING, READY_FOR_COLLECTION, RELEASED, COLLECTED,
       IN_TRANSIT, AT_AGGREGATION, QUALITY_APPROVED, QUALITY_REJECTED, OUT_FOR_DELIVERY}
    case _ => {}
  }

  lemma TableIs(s: Status, t: Status)
    requires Stored(t)
    ensures t in Next(s) <==> s in GrantedFrom(t)
  {
    if t.CANCELLED? { hide Stored; } else { OtherThanCancelled(s, t); hide Next, GrantedFrom; }
  }

  lemma OtherThanCancelled(s: Status, t: Status)
    requires Stored(t) && !t.CANCELLED?
    ensures t in Next(s) <==> s in GrantedFrom(t)
  {
  }

  /** Three statuses that no row can hold, and five more that no request may name: those have entry points of their own. */
  lemma StatusesAre(s: Status)
    ensures Stored(s) <==> s !in {ORDER_REJECTED, REFUNDED, PAYMENT_CONFIRMED_BY_FARMER}
    ensures Requestable(s)
            <==> s !in {READY_TO_PROCESS, PROCESSING, READY_FOR_COLLECTION, RELEASED, COLLECTED, REFUNDED}
  {
  }

  predicate IsParty(w: World, o: nat, user: nat)
    requires o < |w.orders|
  {
    user == w.orders[o].buyer || user == w.orders[o].farmer
  }

  predicate HasRole(w: World, user: nat, roles: set<Role>) {
    user in w.roles && w.roles[user] in roles
  }

  /** A status change is made exactly when the order exists; a user with a bypassing role or a party asks; for a party
      without such a role the order is where the status is granted from; from PAYMENT_SECURED to IN_TRANSIT the
      farmer has confirmed unless staff ask; a row can hold the status; and for PROCESSING the batch is not short. */
  lemma StatusAnswerIff(w: World, o: nat, t: Status, actor: nat)
    requires Valid(w)
    ensures UpdateStatusStep(w, o, t, actor).1.Done?
            <==> && o < |w.orders| && t !in {ORDER_REJECTED, REFUNDED, PAYMENT_CONFIRMED_BY_FARMER}
                 && (HasRole(w, actor, {ADMIN, STAFF, AGGREGATION_MANAGER, TRANSPORT_PROVIDER})
                     || (IsParty(w, o, actor) && w.orders[o].status in GrantedFrom(t)))
                 && (w.orders[o].status.PAYMENT_SECURED? && t.IN_TRANSIT?
                     && !HasRole(w, actor, {ADMIN, STAFF, AGGREGATION_MANAGER}) ==>
                       o in w.payments && w.payments[o].status.CONFIRMED_BY_FARMER?)
                 && (t.PROCESSING? ==> !ShortOfStock(w, o))
  {
    StatusesAre(t);
    if o < |w.orders| && Stored(t) { TableIs(w.orders[o].status, t); }
    RefusedProcessing(w, o, actor);
    UpdateEffect(w, o, t, actor);
    assert FarmerConfirmed(w, o) <==> o in w.payments && w.payments[o].status.CONFIRMED_BY_FARMER?
      by { assert o in w.payments ==> PaymentOk(w.payments[o], w.orders[o]); }
    hide Next, Valid, UpdateStatusStep, ChangesAtMost, GrantedFrom, ShortOfStock, FarmerConfirmed;
  }

  /** A change that is made writes the status of its order and adds its history entry, in the name of who asked.
      Processing also takes the quantity off the order's listing, which stops at zero. All else stays. */
  lemma StatusWrites(w: World, o: nat, t: Status, actor: nat)
    requires UpdateStatusStep(w, o, t, actor).1.Done?
    ensures var w' := UpdateStatusStep(w, o, t, actor).0;
            && o < |w.orders| == |w'.orders| && w'.payments == w.payments && w'.roles == w.roles
            && (forall i :: 0 <= i < |w.orders| && i != o ==> w'.orders[i] == w.orders[i])
            && w'.orders[o].status == t && w'.orders[o].history == w.orders[o].history + [Change(t, actor)]
            && w'.orders[o].(status := w.orders[o].status, history := w.orders[o].history, column := w.orders[o].column) == w.orders[o]
            && w'.listings.Keys == w.listings.Keys
            && forall l :: l in w.listings ==>
                 w'.listings[l] == if t.PROCESSING? && w.orders[o].listing == Some(l) then
                                     (if w.orders[o].quantity < w.listings[l] then w.listings[l] - w.orders[o].quantity else 0.0)
                                   else w.listings[l]
  {
    hide Next, I.DeductStep, Stored, FarmerConfirmed;
  }

  // ---------- the entry points ----------

  lemma StaffAnswer(w: World, o: nat, from: Status, to: Status, actor: nat)
    requires Valid(w) && Stored(to) && !to.IN_TRANSIT?
    ensures StaffStep(w, o, from, to, actor).1.Done?
            <==> o < |w.orders| && HasRole(w, actor, {ADMIN, STAFF, AGGREGATION_MANAGER}) && w.orders[o].status == from
                 && (to.PROCESSING? ==> !ShortOfStock(w, o))
    ensures StaffStep(w, o, from, to, actor).1.Done? ==> StaffStep(w, o, from, to, actor) == UpdateStatusStep(w, o, to, actor)
  {
    StatusAnswerIff(w, o, to, actor);
    hide Valid, UpdateStatusStep, GrantedFrom, ShortOfStock;
  }

  /** Who moves an order from where to where by each dedicated entry point. */
  lemma EntryPointsIff(w: World, o: nat, actor: nat)
    requires Valid(w)
    ensures StartProcessingStep(w, o, actor).1.Done?
            <==> o < |w.orders| && HasRole(w, actor, {ADMIN, STAFF, AGGREGATION_MANAGER}) && w.orders[o].status.READY_TO_PROCESS?
                 && !ShortOfStock(w, o)
    ensures StartProcessingStep(w, o, actor).1.Done? ==> StartProcessingStep(w, o, actor).0.orders[o].status.PROCESSING?
    ensures MarkReadyStep(w, o, actor).1.Done?
            <==> o < |w.orders| && HasRole(w, actor, {ADMIN, STAFF, AGGREGATION_MANAGER}) && w.orders[o].status.PROCESSING?
    ensures MarkReadyStep(w, o, actor).1.Done? ==> MarkReadyStep(w, o, actor).0.orders[o].status.READY_FOR_COLLECTION?
    ensures MarkCollectedStep(w, o, actor).1.Done?
            <==> o < |w.orders| && actor == w.orders[o].buyer && w.orders[o].status.RELEASED?
    ensures MarkCollectedStep(w, o, actor).1.Done? ==> MarkCollectedStep(w, o, actor).0.orders[o].status.COLLECTED?
    ensures ConfirmDeliveryStep(w, o, actor).1.Done?
            <==> o < |w.orders| && actor == w.orders[o].buyer && w.orders[o].transport && w.orders[o].status.DELIVERED?
    ensures ConfirmDeliveryStep(w, o, actor).1.Done? ==> ConfirmDeliveryStep(w, o, actor).0.orders[o].status.COMPLETED?
  {
    StaffAnswer(w, o, READY_TO_PROCESS, PROCESSING, actor);
    StaffAnswer(w, o, PROCESSING, READY_FOR_COLLECTION, actor);
    if StartProcessingStep(w, o, actor).1.Done? { StatusWrites(w, o, PROCESSING, actor); }
    if MarkReadyStep(w, o, actor).1.Done? { StatusWrites(w, o, READY_FOR_COLLECTION, actor); }
    hide Valid, UpdateStatusStep, StaffStep, ShortOfStock;
  }

  /** A stock-out releases an order that is ready for collection and sends any other out for delivery, where that is granted. */
  lemma StockOutIff(w: World, o: nat, actor: nat)
    requires Valid(w) && o < |w.orders| && !Bypasses(w, actor)
    ensures var (w', r) := UpdateStatusStep(w, o, StockOutStatus(w, o), actor);
            && (r.Done? <==> IsParty(w, o, actor) && w.orders[o].status in {READY_FOR_COLLECTION, COLLECTED, QUALITY_APPROVED})
            && (r.Done? ==> w'.orders[o].status == if w.orders[o].status.READY_FOR_COLLECTION? then RELEASED else OUT_FOR_DELIVERY)
  {
    StatusAnswerIff(w, o, StockOutStatus(w, o), actor);
    if UpdateStatusStep(w, o, StockOutStatus(w, o), actor).1.Done? { StatusWrites(w, o, StockOutStatus(w, o), actor); }
    hide Valid, UpdateStatusStep, ShortOfStock;
  }

  /** An order is placed exactly when no other has its batch; it is then the last one, and all else stays. */
  lemma PlacedIff(w: World, e: Event)
    requires e.PlaceOrder?
    ensures PlaceOrderStep(w, Placed(e)).1.Done?
            <==> (e.batch.Some? ==> forall i :: 0 <= i < |w.orders| ==> w.orders[i].batch != e.batch)
    ensures var (w', r) := PlaceOrderStep(w, Placed(e));
            r.Done? ==>
              && |w'.orders| == |w.orders| + 1 && w'.orders[..|w.orders|] == w.orders && w' == w.(orders := w'.orders)
              && var order := w'.orders[|w.orders|];
                 && order.status.ORDER_PLACED? && order.history == [] && order.column == []
                 && (order.buyer, order.farmer) == (e.buyer, e.farmer) && (order.quantity, order.total) == (e.quantity, e.total)
                 && (order.batch, order.listing, order.transport) == (e.batch, e.listing, e.transport)
  {
  }

  /** Whoever acts, these statuses are entered by their entry points only. */
  lemma EnteredOnlyBy(w: World, e: Event, o: nat)
    requires Allowed(e) && o < |w.orders| && Step(w, e).orders != w.orders && Concerns(e, o)
    ensures StatusOf(w, e).READY_TO_PROCESS? ==> e.ConfirmByFarmer?
    ensures StatusOf(w, e).PROCESSING? ==> e.StartProcessing?
    ensures StatusOf(w, e).READY_FOR_COLLECTION? ==> e.MarkReady?
    ensures StatusOf(w, e).RELEASED? ==> e.RecordStockOut? && w.orders[o].status.READY_FOR_COLLECTION?
    ensures StatusOf(w, e).COLLECTED? ==> e.MarkCollected? && w.orders[o].status.RELEASED? && e.actor == w.orders[o].buyer
  {
    if e.UpdateStatus? { StatusesAre(e.status); }
    hide UpdateStatusStep, Requestable;
  }

  // ---------- payments ----------

  /** A payment call touches the payment of its order only. */
  lemma OtherPaymentsStay(w: World, e: Event)
    requires e.CreatePayment? || e.UpdatePayment? || e.ConfirmPayment? || e.ConfirmByFarmer?
    ensures forall o :: o != e.o ==> (o in Step(w, e).payments <==> o in w.payments)
                                     && (o in w.payments ==> Step(w, e).payments[o] == w.payments[o])
  {
    hide UpdateStatusStep, ChangesAtMost;
    if !e.CreatePayment? { PaymentCallEffect(w, e); hide Step; }
  }

  lemma PaymentKept(w: World, o: nat, t: Status, actor: nat)
    ensures UpdateStatusStep(w, o, t, actor).0.payments == w.payments && UpdateStatusStep(w, o, t, actor).0.roles == w.roles
  {
    UpdateEffect(w, o, t, actor);
    hide UpdateStatusStep, ChangesAtMost;
  }

  /** A payment is created exactly for an order that exists and has none: pending, confirmed by nobody. */
  lemma PaymentCreatedIff(w: World, o: nat, amount: real, payer: nat)
    ensures var (w', r) := CreatePaymentStep(w, o, amount, payer);
            && (r.Done? <==> o < |w.orders| && o !in w.payments)
            && w'.orders == w.orders && w'.listings == w.listings && w'.ledger == w.ledger
            && (r.Done? ==> && o in w'.payments && w'.payments[o].amount == amount && w'.payments[o].payer == payer
                            && w'.payments[o].status.PENDING? && w'.payments[o].confirmedBy.None? && w'.payments[o].farmerConfirmedBy.None?)
  {
  }

  /** The request names the status. */
  predicate Names(requested: Requested, s: PaymentStatus) {
    && (s.PENDING? <==> requested.ToPending?) && (s.SECURED? <==> requested.ToSecured?)
    && (s.RELEASED_TO_PAYEE? <==> requested.ToReleased?) && (s.REFUNDED_TO_PAYER? <==> requested.ToRefunded?)
    && (s.IN_DISPUTE? <==> requested.ToDisputed?) && (s.FAILED? <==> requested.ToFailed?) && !s.CONFIRMED_BY_FARMER?
  }

  lemma RequestNames(requested: Requested)
    ensures Names(requested, RequestedStatus(requested))
  {
  }

  /** A status request is answered exactly for an existing payment, and changes its status only; one that secures the
      payment also asks for PAYMENT_SECURED in the payer's name. */
  lemma PaymentRequestIff(w: World, o: nat, requested: Requested)
    requires Valid(w)
    ensures var (w', r) := UpdatePaymentStep(w, o, requested);
            && (r.Done? <==> o in w.payments)
            && (r.Done? ==>
                  && o in w'.payments
                  && w'.payments[o] == w.payments[o].(status := w'.payments[o].status)
                  && Names(requested, w'.payments[o].status)
                  && (w'.orders != w.orders
                      <==> && requested.ToSecured? && !w.payments[o].status.SECURED?
                           && (Bypasses(w, w.payments[o].payer)
                               || (IsParty(w, o, w.payments[o].payer) && w.orders[o].status in {ORDER_PLACED, ORDER_ACCEPTED})))
                  && (w'.orders != w.orders ==> w'.orders[o].status.PAYMENT_SECURED?))
  {
    if o in w.payments {
      var payment := w.payments[o];
      var w1 := w.(payments := w.payments[o := payment.(status := RequestedStatus(requested))]);
      assert o < |w.orders|;
      PaymentKept(w1, o, PAYMENT_SECURED, payment.payer);
      UpdateEffect(w1, o, PAYMENT_SECURED, payment.payer);
      TableIs(w.orders[o].status, PAYMENT_SECURED);
      RequestNames(requested);
      if UpdateStatusStep(w1, o, PAYMENT_SECURED, payment.payer).1.Done? { StatusWrites(w1, o, PAYMENT_SECURED, payment.payer); }
      hide Valid, Next, UpdateStatusStep, ChangesAtMost, Names, RequestedStatus;
    }
  }

  /** The buyer's confirmation succeeds exactly before PAYMENT_SECURED, with an amount within 0.01 of the total. The payment, new or
      not, is then secured and confirmed, of that amount, and the order is at PAYMENT_SECURED. */
  lemma BuyerConfirmsIff(w: World, o: nat, amount: real, confirmed: bool, buyer: nat)
    ensures var (w', r) := ConfirmPaymentStep(w, o, amount, confirmed, buyer);
            && (r.Done? <==> && confirmed && o < |w.orders| && w.orders[o].buyer == buyer
                             && w.orders[o].status in {ORDER_PLACED, ORDER_ACCEPTED}
                             && amount - 0.01 <= w.orders[o].total <= amount + 0.01)
            && (r.Refused? ==> w' == w)
            && (r.Done? ==>
                  && o in w'.payments && w'.payments[o].status.SECURED? && w'.payments[o].confirmedBy == Some(buyer)
                  && w'.payments[o].amount == amount
                  && (o in w.payments ==> w'.payments[o].payer == w.payments[o].payer
                                          && w'.payments[o].farmerConfirmedBy == w.payments[o].farmerConfirmedBy)
                  && (o !in w.payments ==> w'.payments[o].payer == buyer && w'.payments[o].farmerConfirmedBy.None?)
                  && |w'.orders| == |w.orders| && w'.orders[o].status.PAYMENT_SECURED?)
  {
    var (w', r) := ConfirmPaymentStep(w, o, amount, confirmed, buyer);
    if r.Done? {
      var w1 := PaymentWritten(w, ConfirmPayment(o, amount, confirmed, buyer));
      TableIs(w.orders[o].status, PAYMENT_SECURED);
      PaymentKept(w1, o, PAYMENT_SECURED, buyer);
      UpdateEffect(w1, o, PAYMENT_SECURED, buyer);
      assert UpdateStatusStep(w1, o, PAYMENT_SECURED, buyer).1.Done?;
      StatusWrites(w1, o, PAYMENT_SECURED, buyer);
    }
    hide Next, UpdateStatusStep, ChangesAtMost;
  }

  /** The farmer's confirmation succeeds exactly on a secured payment that the buyer has confirmed and the farmer has not. The payment
      is then CONFIRMED_BY_FARMER, and the order READY_TO_PROCESS if it was at PAYMENT_SECURED or the farmer bypasses the table. */
  lemma FarmerConfirmsIff(w: World, o: nat, confirmed: bool, farmer: nat)
    requires Valid(w)
    ensures var (w', r) := ConfirmByFarmerStep(w, o, confirmed, farmer);
            && (r.Done? <==> && confirmed && o < |w.orders| && w.orders[o].farmer == farmer && o in w.payments
                             && w.payments[o].status.SECURED? && w.payments[o].confirmedBy.Some? && w.payments[o].farmerConfirmedBy.None?)
            && (r.Refused? ==> w' == w)
            && (r.Done? ==>
                  && o in w'.payments && w'.payments[o].status.CONFIRMED_BY_FARMER? && w'.payments[o].farmerConfirmedBy == Some(farmer)
                  && (w'.payments[o].amount, w'.payments[o].payer, w'.payments[o].confirmedBy)
                     == (w.payments[o].amount, w.payments[o].payer, w.payments[o].confirmedBy)
                  && |w'.orders| == |w.orders|
                  && if w.orders[o].status.PAYMENT_SECURED? || Bypasses(w, farmer) then w'.orders[o].status.READY_TO_PROCESS?
                     else w'.orders == w.orders)
  {
    var (w', r) := ConfirmByFarmerStep(w, o, confirmed, farmer);
    if r.Done? {
      var w1 := PaymentWritten(w, ConfirmByFarmer(o, confirmed, farmer));
      TableIs(w.orders[o].status, READY_TO_PROCESS);
      PaymentKept(w1, o, READY_TO_PROCESS, farmer);
      UpdateEffect(w1, o, READY_TO_PROCESS, farmer);
      if UpdateStatusStep(w1, o, READY_TO_PROCESS, farmer).1.Done? { StatusWrites(w1, o, READY_TO_PROCESS, farmer); }
    }
    hide Next, UpdateStatusStep, ChangesAtMost, Valid;
  }

  // ---------- what an order has been through ----------

  /** No user with a bypassing role changes the order otherwise than by the entry points that check the status. */
  predicate PartiesOnly(w: World, e: Event, o: nat) {
    o < |w.orders| && Concerns(e, o) && (e.UpdateStatus? || e.RecordStockOut? || e.UpdatePayment? || e.ConfirmByFarmer?) ==>
      !HasRole(w, ActorOf(w, e), {ADMIN, STAFF, AGGREGATION_MANAGER, TRANSPORT_PROVIDER})
  }

  predicate AllByParties(w: World, events: seq<Event>, o: nat)
    decreases |events|
  {
    events == [] || (PartiesOnly(w, events[0], o) && AllByParties(Step(w, events[0]), events[1..], o))
  }

  /** Each change was granted from where the order was. */
  ghost predicate Lawful(order: Order) {
    && HistoryAgrees(order)
    && forall i :: 0 <= i < |order.history| ==> StatusAfter(order.history[..i]) in GrantedFrom(order.history[i].status)
  }

  lemma ChangedLawful(order: Order, t: Status, actor: nat)
    requires Lawful(order) && order.status in GrantedFrom(t)
    ensures Lawful(Changed(order, t, actor))
  {
    var history := Changed(order, t, actor).history;
    hide GrantedFrom;
    forall i | 0 <= i < |history| ensures StatusAfter(history[..i]) in GrantedFrom(history[i].status) {
      assert history[..i] == if i < |order.history| then order.history[..i] else order.history;
    }
  }

  lemma StepKeepsLawful(w: World, e: Event, o: nat)
    requires PartiesOnly(w, e, o) && o < |Step(w, e).orders| && (o < |w.orders| ==> Lawful(w.orders[o]))
    ensures Lawful(Step(w, e).orders[o])
  {
    OrderAfter(w, e, o);
    if o < |w.orders| && Step(w, e).orders[o] != w.orders[o] {
      assert Follows(w, e) by { hide Step; }
      StepFollows(w, e, o);
      TableIs(w.orders[o].status, StatusOf(w, e));
      hide Step, StatusOf, ActorOf, Follows, PartiesOnly, Next, Changed, GrantedFrom, Lawful;
      ChangedLawful(w.orders[o], StatusOf(w, e), ActorOf(w, e));
    }
    hide Step, GrantedFrom;
  }

  lemma {:induction false} RunKeepsLawful(w: World, events: seq<Event>, o: nat)
    requires AllByParties(w, events, o) && o < |Run(w, events).orders| && (o < |w.orders| ==> Lawful(w.orders[o]))
    ensures Lawful(Run(w, events).orders[o])
    decreases |events|
  {
    if events != [] {
      hide Step, Lawful, PartiesOnly;
      StepKeepsOrders(w, events[0]);
      if o < |Step(w, events[0]).orders| { StepKeepsLawful(w, events[0], o); }
      RunKeepsLawful(Step(w, events[0]), events[1..], o);
    }
  }

  /** The order was at `s` before its `i`-th change. */
  predicate Earlier(history: seq<Change>, i: nat, s: Status)
    requires i <= |history|
  {
    exists j :: 0 <= j < i && history[j].status == s
  }

  lemma Before(order: Order, i: nat)
    requires Lawful(order) && i < |order.history|
    ensures (if i == 0 then ORDER_PLACED else order.history[i - 1].status) in GrantedFrom(order.history[i].status)
  {
    hide GrantedFrom;
    if i > 0 { assert order.history[..i][|order.history[..i]| - 1] == order.history[i - 1]; }
  }

  /** The statuses that come after PAYMENT_SECURED only. */
  predicate AfterPayment(s: Status) {
    !(s in {ORDER_PLACED, ORDER_ACCEPTED, PAYMENT_SECURED, CANCELLED})
  }

  lemma {:induction false} PaidBefore(order: Order, i: nat)
    requires Lawful(order) && i < |order.history| && AfterPayment(order.history[i].status)
    ensures Earlier(order.history, i, PAYMENT_SECURED)
  {
    Before(order, i);
    GrantedAfter(if i == 0 then ORDER_PLACED else order.history[i - 1].status, order.history[i].status);
    hide GrantedFrom, Lawful;
    if i > 0 && !order.history[i - 1].status.PAYMENT_SECURED? {
      PaidBefore(order, i - 1);
      var j :| 0 <= j < i - 1 && order.history[j].status == PAYMENT_SECURED;
      assert Earlier(order.history, i, PAYMENT_SECURED);
    } else {
      assert i > 0 && order.history[i - 1].status == PAYMENT_SECURED;
    }
  }

  lemma GrantFalls(s: Status, t: Status)
    requires s in GrantedFrom(t)
    ensures Rank(t) < Rank(s)
  {
    assert Stored(t);
    TableIs(s, t);
    hide GrantedFrom, Rank, Next;
    RankFalls(s, t);
  }

  lemma {:induction false} RanksFall(order: Order, i: nat, j: nat)
    requires Lawful(order) && i < j < |order.history|
    ensures Rank(order.history[j].status) < Rank(order.history[i].status)
  {
    Before(order, j);
    hide Rank, GrantedFrom, Lawful;
    GrantFalls(order.history[j - 1].status, order.history[j].status);
    if i < j - 1 { RanksFall(order, i, j - 1); }
  }

  /** What a grant says of the status before it. */
  lemma GrantedAfter(s: Status, t: Status)
    requires s in GrantedFrom(t)
    ensures AfterPayment(t) ==> s.PAYMENT_SECURED? || AfterPayment(s)
    ensures match t
            case PROCESSING => s.READY_TO_PROCESS?
            case READY_FOR_COLLECTION => s.PROCESSING?
            case RELEASED => s.READY_FOR_COLLECTION?
            case COLLECTED => s.RELEASED?
            case AT_AGGREGATION => s.IN_TRANSIT?
            case QUALITY_CHECKED => s.AT_AGGREGATION?
            case QUALITY_APPROVED => s.QUALITY_CHECKED?
            case QUALITY_REJECTED => s.QUALITY_CHECKED?
            case OUT_FOR_DELIVERY => s.COLLECTED? || s.QUALITY_APPROVED?
            case DELIVERED => s.OUT_FOR_DELIVERY?
            case COMPLETED => s.COLLECTED? || s.DELIVERED?
            case DISPUTED => s.DELIVERED?
            case _ => true
  {
  }

  /** What must have gone before a change: the stages of a pickup or of a transport, in their order, after the payment. */
  ghost predicate Milestones(history: seq<Change>, i: nat)
    requires i < |history|
  {
    var s := history[i].status;
    && (AfterPayment(s) ==> Earlier(history, i, PAYMENT_SECURED))
    && (s.PROCESSING? ==> Earlier(history, i, READY_TO_PROCESS))
    && (s.READY_FOR_COLLECTION? ==> Earlier(history, i, PROCESSING))
    && (s.RELEASED? ==> Earlier(history, i, READY_FOR_COLLECTION))
    && (s.COLLECTED? ==> Earlier(history, i, RELEASED))
    && (s.AT_AGGREGATION? ==> Earlier(history, i, IN_TRANSIT))
    && (s.QUALITY_CHECKED? ==> Earlier(history, i, AT_AGGREGATION))
    && (s.QUALITY_APPROVED? || s.QUALITY_REJECTED? ==> Earlier(history, i, QUALITY_CHECKED))
    && (s.OUT_FOR_DELIVERY? ==> Earlier(history, i, COLLECTED) || Earlier(history, i, QUALITY_APPROVED))
    && (s.DELIVERED? ==> Earlier(history, i, OUT_FOR_DELIVERY))
    && (s.COMPLETED? ==> Earlier(history, i, COLLECTED) || Earlier(history, i, DELIVERED))
    && (s.DISPUTED? ==> Earlier(history, i, DELIVERED))
  }

  lemma LawfulMilestones(order: Order, i: nat)
    requires Lawful(order) && i < |order.history|
    ensures Milestones(order.history, i)
  {
    Before(order, i);
    if AfterPayment(order.history[i].status) { PaidBefore(order, i); }
    assert i > 0 ==> Earlier(order.history, i, order.history[i - 1].status);
    hide Lawful, GrantedFrom, Earlier, AfterPayment, Milestones;
    MilestonesAfter(order.history, i, if i == 0 then ORDER_PLACED else order.history[i - 1].status);
  }

  lemma MilestonesAfter(history: seq<Change>, i: nat, before: Status)
    requires i < |history| && before in GrantedFrom(history[i].status)
    requires if before.ORDER_PLACED? then i == 0 || Earlier(history, i, before) else Earlier(history, i, before)
    requires AfterPayment(history[i].status) ==> Earlier(history, i, PAYMENT_SECURED)
    ensures Milestones(history, i)
  {
    GrantedAfter(before, history[i].status);
    hide GrantedFrom, Earlier, AfterPayment;
  }

  lemma Ranks()
    ensures Rank(QUALITY_CHECKED) == 4 && Rank(COLLECTED) == 3 && Rank(OUT_FOR_DELIVERY) == 2
    ensures Rank(QUALITY_REJECTED) == 1 && Rank(DELIVERED) == 1
  {
  }

  /** The goods are on their way to the buyer or there. */
  predicate Goes(s: Status) {
    s.OUT_FOR_DELIVERY? || s.DELIVERED? || s.COMPLETED?
  }

  lemma NotAfterRejection(order: Order, i: nat, j: nat)
    requires Lawful(order) && i < j < |order.history| && order.history[i].status == QUALITY_REJECTED
    ensures !Goes(order.history[j].status)
  {
    Before(order, j);
    GrantedAfter(order.history[j - 1].status, order.history[j].status);
    Ranks();
    hide Lawful, GrantedFrom, AfterPayment, Rank;
    RanksFall(order, i, j);
    if i < j - 1 { RanksFall(order, i, j - 1); }
  }

  lemma NotBeforeRejection(order: Order, i: nat, j: nat)
    requires Lawful(order) && j < i < |order.history| && order.history[i].status == QUALITY_REJECTED
    ensures !Goes(order.history[j].status)
  {
    Before(order, i);
    GrantedAfter(order.history[i - 1].status, QUALITY_REJECTED);
    Ranks();
    hide Lawful, GrantedFrom, AfterPayment, Rank;
    if j < i - 1 {
      RanksFall(order, j, i - 1);
      assert Rank(COMPLETED) == 0 by { LastRank(); }
    }
  }

  lemma LastRank()
    ensures Rank(COMPLETED) == 0
  {
  }

  /** Rejected goods go nowhere. */
  lemma RejectedNotDelivered(order: Order, i: nat, j: nat)
    requires Lawful(order) && i < |order.history| && order.history[i].status.QUALITY_REJECTED? && j < |order.history|
    ensures !Goes(order.history[j].status)
  {
    if i < j { NotAfterRejection(order, i, j); }
    if j < i { NotBeforeRejection(order, i, j); }
  }

  /** Over every run in which nobody bypasses the table for an order: each of its changes has its milestones behind it, in
      particular goods are delivered only after collection or an approved quality check, and everything
      but acceptance and cancellation comes after the payment; and an order whose quality was rejected never goes
      out for delivery. */
  lemma OrderMilestones(roles: map<nat, Role>, listings: map<nat, real>, events: seq<Event>, o: nat)
    requires AllByParties(Start(roles, listings), events, o) && o < |Run(Start(roles, listings), events).orders|
    ensures var order := Run(Start(roles, listings), events).orders[o];
            && order.status == StatusAfter(order.history)
            && (forall i: nat :: i < |order.history| ==> Milestones(order.history, i))
            && (forall i, j :: 0 <= i < |order.history| && 0 <= j < |order.history| && order.history[i].status.QUALITY_REJECTED? ==>
                  !Goes(order.history[j].status))
  {
    RunKeepsLawful(Start(roles, listings), events, o);
    hide Run, AllByParties, Milestones;
    var order := Run(Start(roles, listings), events).orders[o];
    forall i: nat | i < |order.history| ensures Milestones(order.history, i) { LawfulMilestones(order, i); }
    forall i, j | 0 <= i < |order.history| && 0 <= j < |order.history| && order.history[i].status.QUALITY_REJECTED?
      ensures !Goes(order.history[j].status)
    {
      RejectedNotDelivered(order, i, j);
    }
  }
}

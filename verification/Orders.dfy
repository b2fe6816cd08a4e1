/** The order lifecycle: the transition table, the status change with its roles and its payment gate, the
    dedicated entry points, the two-party payment confirmation, and the deduction
    from listing and batch when an order starts processing. */
module Orders {
  import opened Results
  import opened Roles
  import I = Inventory

  datatype Status =
    | ORDER_PLACED | ORDER_ACCEPTED | PAYMENT_SECURED | READY_TO_PROCESS | PROCESSING
    | READY_FOR_COLLECTION | RELEASED | COLLECTED | IN_TRANSIT | AT_AGGREGATION
    | QUALITY_CHECKED | QUALITY_APPROVED | QUALITY_REJECTED | OUT_FOR_DELIVERY | DELIVERED
    | COMPLETED | ORDER_REJECTED | CANCELLED | REFUNDED | DISPUTED | REJECTED | PAYMENT_CONFIRMED_BY_FARMER

  /** Two statuses of the table and one that the phone menu asks for are not among the schema's order
      statuses: no row can hold them. */
  predicate Stored(s: Status) {
    !s.ORDER_REJECTED? && !s.REFUNDED? && !s.PAYMENT_CONFIRMED_BY_FARMER?
  }

  /** The statuses that a direct change may ask for: the fourteen that the request validation lists, which
      include all that quality checks, stock-ins and transport ask for, and the two more of the phone menu. */
  predicate Requestable(s: Status) {
    match s
    case READY_TO_PROCESS => false
    case PROCESSING => false
    case READY_FOR_COLLECTION => false
    case RELEASED => false
    case COLLECTED => false
    case REFUNDED => false
    case _ => true
  }

  /** The transition table. */
  function Next(s: Status): set<Status> {
    match s
    case ORDER_PLACED => {ORDER_ACCEPTED, PAYMENT_SECURED, ORDER_REJECTED, CANCELLED}
    case ORDER_ACCEPTED => {PAYMENT_SECURED, ORDER_REJECTED, CANCELLED}
    case PAYMENT_SECURED => {READY_TO_PROCESS, IN_TRANSIT, CANCELLED}
    case READY_TO_PROCESS => {PROCESSING, CANCELLED}
    case PROCESSING => {READY_FOR_COLLECTION, CANCELLED}
    case READY_FOR_COLLECTION => {RELEASED, CANCELLED}
    case RELEASED => {COLLECTED, CANCELLED}
    case COLLECTED => {OUT_FOR_DELIVERY, COMPLETED, CANCELLED}
    case IN_TRANSIT => {AT_AGGREGATION, CANCELLED}
    case AT_AGGREGATION => {QUALITY_CHECKED, CANCELLED}
    case QUALITY_CHECKED => {QUALITY_APPROVED, QUALITY_REJECTED}
    case QUALITY_APPROVED => {OUT_FOR_DELIVERY, CANCELLED}
    case QUALITY_REJECTED => {CANCELLED, REFUNDED}
    case OUT_FOR_DELIVERY => {DELIVERED, CANCELLED}
    case DELIVERED => {COMPLETED, DISPUTED}
    case _ => {}
  }

  datatype Change = Change(status: Status, actor: nat)

  /** An entry of the stored history column: pushed by a service, or appended by the database's trigger. */
  datatype Entry = ByService(change: Change) | ByTrigger(status: Status)

  /** `transport` says that the buyer asked for transport instead of picking up; `history` is what the services
      pushed, `column` what the row holds. */
  datatype Order = Order(buyer: nat, farmer: nat, quantity: real, total: real, batch: Option<string>,
                         listing: Option<nat>, transport: bool, status: Status, history: seq<Change>,
                         column: seq<Entry>)

  datatype PaymentStatus = PENDING | SECURED | CONFIRMED_BY_FARMER | RELEASED_TO_PAYEE | REFUNDED_TO_PAYER | IN_DISPUTE | FAILED

  datatype Payment = Payment(amount: real, status: PaymentStatus, payer: nat,
                             confirmedBy: Option<nat>, farmerConfirmedBy: Option<nat>)

  /** `payments` is the payment table by its unique order id; `listings` holds available quantities. */
  datatype World = World(roles: map<nat, Role>, orders: seq<Order>, payments: map<nat, Payment>,
                         listings: map<nat, real>, ledger: I.Ledger)

  predicate IsSystem(w: World, user: nat) {
    user in w.roles && SystemRole(w.roles[user])
  }

  /** The roles whose status changes ignore the table. */
  predicate Bypasses(w: World, user: nat) {
    user in w.roles && (SystemRole(w.roles[user]) || w.roles[user].TRANSPORT_PROVIDER?)
  }

  predicate FarmerConfirmed(w: World, o: nat) {
    o in w.payments && w.payments[o].status.CONFIRMED_BY_FARMER? && w.payments[o].farmerConfirmedBy.Some?
  }

  // ---------- the status change ----------

  /** The checks a status change makes before it touches anything. */
  function Check(w: World, o: nat, s: Status, actor: nat): Outcome {
    if o >= |w.orders| then Refused(NotFound)
    else
      var order := w.orders[o];
      if order.buyer != actor && order.farmer != actor && !Bypasses(w, actor) then Refused(BadRequest)
      else if order.status.PAYMENT_SECURED? && s.IN_TRANSIT? && !IsSystem(w, actor) && !FarmerConfirmed(w, o) then Refused(BadRequest)
      else if s !in Next(order.status) && !Bypasses(w, actor) then Refused(BadRequest)
      else Done
  }

  function DeductListing(w: World, order: Order): World {
    if order.listing.Some? && order.listing.value in w.listings then
      var left := w.listings[order.listing.value] - order.quantity;
      w.(listings := w.listings[order.listing.value := if left > 0.0 then left else 0.0])
    else w
  }

  function Deduct(w: World, o: nat): (World, Outcome)
    requires o < |w.orders|
  {
    var order := w.orders[o];
    var w1 := DeductListing(w, order);
    if order.batch.None? then (w1, Done)
    else
      var (ledger, r) := I.DeductStep(w1.ledger, o, order.batch.value, order.quantity);
      (w1.(ledger := ledger), r)
  }

  /** What the trigger on status changes appends. */
  function TriggerAppends(from: Status, to: Status): seq<Entry> {
    if to == from then [] else [ByTrigger(to)]
  }

  /** The row write of a status change: the service pushes its entry, then the trigger appends its own. */
  function Changed(order: Order, s: Status, actor: nat): Order {
    order.(status := s, history := order.history + [Change(s, actor)],
           column := order.column + [ByService(Change(s, actor))] + TriggerAppends(order.status, s))
  }

  function WithStatus(w: World, o: nat, s: Status, actor: nat): World
    requires o < |w.orders|
  {
    w.(orders := w.orders[o := Changed(w.orders[o], s, actor)])
  }

  /** The listing is written before the batch check can refuse, and nothing undoes it. */
  function UpdateStatusStep(w: World, o: nat, s: Status, actor: nat): (World, Outcome) {
    var c := Check(w, o, s, actor);
    if c.Refused? then (w, c)
    else if s.PROCESSING? then
      var (w1, r) := Deduct(w, o);
      if r.Refused? then (w1, r) else (WithStatus(w1, o, s, actor), Done)
    else if !Stored(s) then (w, Refused(ConstraintViolated))
    else (WithStatus(w, o, s, actor), Done)
  }

  // ---------- the dedicated entry points ----------

  /** An order's batch is unique among orders. */
  predicate BatchOrdered(orders: seq<Order>, batch: Option<string>) {
    batch.Some? && exists i :: 0 <= i < |orders| && orders[i].batch == batch
  }

  function PlaceOrderStep(w: World, order: Order): (World, Outcome) {
    if BatchOrdered(w.orders, order.batch) then (w, Refused(ConstraintViolated))
    else (w.(orders := w.orders + [order]), Done)
  }

  /** What recording a stock-out for an order asks for. */
  function StockOutStatus(w: World, o: nat): Status {
    if o < |w.orders| && w.orders[o].status.READY_FOR_COLLECTION? then RELEASED else OUT_FOR_DELIVERY
  }

  /** For staff only, from one status to another. */
  function StaffStep(w: World, o: nat, from: Status, to: Status, actor: nat): (World, Outcome) {
    if o >= |w.orders| then (w, Refused(NotFound))
    else if !IsSystem(w, actor) then (w, Refused(BadRequest))
    else if w.orders[o].status != from then (w, Refused(BadRequest))
    else UpdateStatusStep(w, o, to, actor)
  }

  function StartProcessingStep(w: World, o: nat, actor: nat): (World, Outcome) {
    StaffStep(w, o, READY_TO_PROCESS, PROCESSING, actor)
  }

  function MarkReadyStep(w: World, o: nat, actor: nat): (World, Outcome) {
    StaffStep(w, o, PROCESSING, READY_FOR_COLLECTION, actor)
  }

  function MarkCollectedStep(w: World, o: nat, actor: nat): (World, Outcome) {
    if o >= |w.orders| then (w, Refused(NotFound))
    else if w.orders[o].buyer != actor || !w.orders[o].status.RELEASED? then (w, Refused(BadRequest))
    else (WithStatus(w, o, COLLECTED, actor), Done)
  }

  function ConfirmDeliveryStep(w: World, o: nat, actor: nat): (World, Outcome) {
    if o >= |w.orders| then (w, Refused(NotFound))
    else if w.orders[o].buyer != actor || !w.orders[o].transport || !w.orders[o].status.DELIVERED? then (w, Refused(BadRequest))
    else (WithStatus(w, o, COMPLETED, actor), Done)
  }

  // ---------- payments ----------

  /** Payment references are unique and so is a payment's order, which must exist. */
  function CreatePaymentStep(w: World, o: nat, amount: real, payer: nat): (World, Outcome) {
    if o in w.payments || o >= |w.orders| then (w, Refused(ConstraintViolated))
    else (w.(payments := w.payments[o := Payment(amount, PENDING, payer, None, None)]), Done)
  }

  /** The statuses a request may name. */
  datatype Requested = ToPending | ToSecured | ToReleased | ToRefunded | ToDisputed | ToFailed

  function RequestedStatus(r: Requested): PaymentStatus {
    match r
    case ToPending => PENDING
    case ToSecured => SECURED
    case ToReleased => RELEASED_TO_PAYEE
    case ToRefunded => REFUNDED_TO_PAYER
    case ToDisputed => IN_DISPUTE
    case ToFailed => FAILED
  }

  function UpdatePaymentStep(w: World, o: nat, requested: Requested): (World, Outcome) {
    if o !in w.payments then (w, Refused(NotFound))
    else
      var payment := w.payments[o];
      var w1 := w.(payments := w.payments[o := payment.(status := RequestedStatus(requested))]);
      if requested.ToSecured? && !payment.status.SECURED? then
        (UpdateStatusStep(w1, o, PAYMENT_SECURED, payment.payer).0, Done)
      else (w1, Done)
  }

  predicate Near(amount: real, total: real) {
    -0.01 <= amount - total <= 0.01
  }

  function ConfirmPaymentStep(w: World, o: nat, amount: real, confirmed: bool, buyer: nat): (World, Outcome) {
    if !confirmed then (w, Refused(BadRequest))
    else if o >= |w.orders| then (w, Refused(NotFound))
    else
      var order := w.orders[o];
      if order.buyer != buyer then (w, Refused(BadRequest))
      else if !order.status.ORDER_ACCEPTED? && !order.status.ORDER_PLACED? then (w, Refused(BadRequest))
      else if !Near(amount, order.total) then (w, Refused(BadRequest))
      else
        var payment := if o in w.payments then w.payments[o] else Payment(amount, SECURED, buyer, None, None);
        var w1 := w.(payments := w.payments[o := payment.(amount := amount, confirmedBy := Some(buyer), status := SECURED)]);
        (UpdateStatusStep(w1, o, PAYMENT_SECURED, buyer).0, Done)
  }

  function ConfirmByFarmerStep(w: World, o: nat, confirmed: bool, farmer: nat): (World, Outcome) {
    if !confirmed then (w, Refused(BadRequest))
    else if o >= |w.orders| then (w, Refused(NotFound))
    else if w.orders[o].farmer != farmer then (w, Refused(BadRequest))
    else if o !in w.payments then (w, Refused(NotFound))
    else
      var payment := w.payments[o];
      if !payment.status.SECURED? || payment.confirmedBy.None? then (w, Refused(BadRequest))
      else if payment.farmerConfirmedBy.Some? then (w, Refused(BadRequest))
      else
        var w1 := w.(payments := w.payments[o := payment.(status := CONFIRMED_BY_FARMER, farmerConfirmedBy := Some(farmer))]);
        (UpdateStatusStep(w1, o, READY_TO_PROCESS, farmer).0, Done)
  }

  // ---------- runs ----------

  datatype Event =
    | PlaceOrder(buyer: nat, farmer: nat, quantity: real, total: real, batch: Option<string>, listing: Option<nat>, transport: bool)
    | UpdateStatus(o: nat, status: Status, actor: nat)
    | StartProcessing(o: nat, actor: nat)
    | MarkReady(o: nat, actor: nat)
    | RecordStockOut(o: nat, actor: nat)
    | MarkCollected(o: nat, actor: nat)
    | ConfirmDelivery(o: nat, actor: nat)
    | CreatePayment(o: nat, amount: real, payer: nat)
    | UpdatePayment(o: nat, requested: Requested)
    | ConfirmPayment(o: nat, amount: real, confirmed: bool, actor: nat)
    | ConfirmByFarmer(o: nat, confirmed: bool, actor: nat)
    | Stock(movement: I.Event)

  function Placed(e: Event): Order
    requires e.PlaceOrder?
  {
    Order(e.buyer, e.farmer, e.quantity, e.total, e.batch, e.listing, e.transport, ORDER_PLACED, [], [])
  }

  function Step(w: World, e: Event): World {
    match e
    case PlaceOrder(_, _, _, _, _, _, _) => PlaceOrderStep(w, Placed(e)).0
    case UpdateStatus(o, s, actor) => UpdateStatusStep(w, o, s, actor).0
    case StartProcessing(o, actor) => StartProcessingStep(w, o, actor).0
    case MarkReady(o, actor) => MarkReadyStep(w, o, actor).0
    case RecordStockOut(o, actor) => UpdateStatusStep(w, o, StockOutStatus(w, o), actor).0
    case MarkCollected(o, actor) => MarkCollectedStep(w, o, actor).0
    case ConfirmDelivery(o, actor) => ConfirmDeliveryStep(w, o, actor).0
    case CreatePayment(o, amount, payer) => CreatePaymentStep(w, o, amount, payer).0
    case UpdatePayment(o, requested) => UpdatePaymentStep(w, o, requested).0
    case ConfirmPayment(o, amount, confirmed, actor) => ConfirmPaymentStep(w, o, amount, confirmed, actor).0
    case ConfirmByFarmer(o, confirmed, actor) => ConfirmByFarmerStep(w, o, confirmed, actor).0
    case Stock(m) => w.(ledger := I.Step(w.ledger, m))
  }

  /** Validated quantities and statuses; deductions for orders are made by status changes only. */
  predicate Allowed(e: Event) {
    && (e.UpdateStatus? ==> Requestable(e.status))
    && (e.PlaceOrder? ==> e.quantity >= 0.0)
    && (e.Stock? ==> I.Allowed(e.movement) && !e.movement.Deduct?)
  }

  function Run(w: World, events: seq<Event>): World
    decreases |events|
  {
    if events == [] then w else Run(Step(w, events[0]), events[1..])
  }

  // ---------- what one step does ----------

  /** The status an order event asks for. */
  function StatusOf(w: World, e: Event): Status
    requires !e.PlaceOrder? && !e.CreatePayment? && !e.Stock?
  {
    match e
    case UpdateStatus(_, s, _) => s
    case StartProcessing(_, _) => PROCESSING
    case MarkReady(_, _) => READY_FOR_COLLECTION
    case RecordStockOut(o, _) => StockOutStatus(w, o)
    case MarkCollected(_, _) => COLLECTED
    case ConfirmDelivery(_, _) => COMPLETED
    case UpdatePayment(_, _) => PAYMENT_SECURED
    case ConfirmPayment(_, _, _, _) => PAYMENT_SECURED
    case ConfirmByFarmer(_, _, _) => READY_TO_PROCESS
  }

  /** The user in whose name the status is changed. */
  function ActorOf(w: World, e: Event): nat
    requires !e.PlaceOrder? && !e.CreatePayment? && !e.Stock?
  {
    if e.UpdatePayment? then (if e.o in w.payments then w.payments[e.o].payer else 0) else e.actor
  }

  /** The order's quantity leaves its batch, or its batch is not in the inventory. */
  predicate Deducted(before: I.Ledger, after: I.Ledger, o: nat, order: Order) {
    after == before
    || (order.batch.Some? && (after, Done) == I.DeductStep(before, o, order.batch.value, order.quantity))
  }

  /** Between `w` and `w'` the orders and the ledger are untouched, or order `o` has changed to `s` once, with
      a deduction only if `s` is PROCESSING. */
  predicate ChangesAtMost(w: World, w': World, o: nat, s: Status, actor: nat) {
    || (w'.orders == w.orders && w'.ledger == w.ledger)
    || (o < |w.orders| && Stored(s)
        && w'.orders == w.orders[o := Changed(w.orders[o], s, actor)]
        && if s.PROCESSING? then Deducted(w.ledger, w'.ledger, o, w.orders[o]) else w'.ledger == w.ledger)
  }

  lemma DeductEffect(w: World, o: nat)
    requires o < |w.orders|
    ensures var (w', r) := Deduct(w, o);
            && w'.roles == w.roles && w'.payments == w.payments && w'.orders == w.orders
            && (r.Refused? ==> w'.ledger == w.ledger)
            && (r.Done? ==> Deducted(w.ledger, w'.ledger, o, w.orders[o]))
  {
  }

  lemma ChangedDiffers(orders: seq<Order>, o: nat, s: Status, actor: nat)
    requires o < |orders|
    ensures orders[o := Changed(orders[o], s, actor)] != orders
  {
    assert |Changed(orders[o], s, actor).history| == |orders[o].history| + 1;
    assert orders[o := Changed(orders[o], s, actor)][o] != orders[o];
  }

  lemma UpdateEffect(w: World, o: nat, s: Status, actor: nat)
    ensures var (w', r) := UpdateStatusStep(w, o, s, actor);
            && w'.roles == w.roles && w'.payments == w.payments
            && ChangesAtMost(w, w', o, s, actor)
            && (r.Done? <==> w'.orders != w.orders)
            && (r.Refused? ==> w'.ledger == w.ledger)
            && (r.Done? ==> Check(w, o, s, actor).Done?)
            && (!s.PROCESSING? ==> w'.listings == w.listings && (r.Done? <==> Check(w, o, s, actor).Done? && Stored(s)))
  {
    hide Next;
    if o < |w.orders| {
      DeductEffect(w, o);
      hide Deduct;
      ChangedDiffers(w.orders, o, s, actor);
      hide Changed, Deducted;
    }
  }

  /** The world in which a payment call changes the order's status: the payment is already written. */
  function PaymentWritten(w: World, e: Event): World
    requires e.UpdatePayment? || e.ConfirmPayment? || e.ConfirmByFarmer?
  {
    if e.o !in w.payments && !e.ConfirmPayment? then w
    else
      var payment := if e.o in w.payments then w.payments[e.o] else Payment(e.amount, SECURED, e.actor, None, None);
      w.(payments := w.payments[e.o :=
        match e
        case UpdatePayment(_, requested) => payment.(status := RequestedStatus(requested))
        case ConfirmPayment(_, amount, _, actor) => payment.(amount := amount, confirmedBy := Some(actor), status := SECURED)
        case ConfirmByFarmer(_, _, actor) => payment.(status := CONFIRMED_BY_FARMER, farmerConfirmedBy := Some(actor))])
  }

  /** A payment call does nothing, or writes the payment and may change the order's status. */
  lemma PaymentCallEffect(w: World, e: Event)
    requires e.UpdatePayment? || e.ConfirmPayment? || e.ConfirmByFarmer?
    ensures var w' := Step(w, e);
            && w'.roles == w.roles && w'.ledger == w.ledger
            && (w'.payments == w.payments || w'.payments == PaymentWritten(w, e).payments)
            && (w'.orders == w.orders
                || (w' == UpdateStatusStep(PaymentWritten(w, e), e.o, StatusOf(w, e), ActorOf(w, e)).0
                    && ChangesAtMost(w, w', e.o, StatusOf(w, e), ActorOf(w, e))))
  {
    hide Next, Check, Deduct, UpdateStatusStep;
    UpdateEffect(PaymentWritten(w, e), e.o, StatusOf(w, e), ActorOf(w, e));
  }

  /** A step changes the status of at most the order it names, to the status it asks for. */
  lemma StepEffect(w: World, e: Event)
    ensures var w' := Step(w, e);
            && w'.roles == w.roles
            && (if e.PlaceOrder? then w' == w || (!BatchOrdered(w.orders, e.batch) && w' == w.(orders := w.orders + [Placed(e)]))
                else if e.CreatePayment? then w'.orders == w.orders && w'.ledger == w.ledger
                else if e.Stock? then w' == w.(ledger := I.Step(w.ledger, e.movement))
                else ChangesAtMost(w, w', e.o, StatusOf(w, e), ActorOf(w, e)))
  {
    hide Next, Check, Deduct, UpdateStatusStep;
    match e
    case UpdateStatus(o, s, actor) => UpdateEffect(w, o, s, actor);
    case StartProcessing(o, actor) => UpdateEffect(w, o, PROCESSING, actor);
    case MarkReady(o, actor) => UpdateEffect(w, o, READY_FOR_COLLECTION, actor);
    case RecordStockOut(o, actor) => UpdateEffect(w, o, StockOutStatus(w, o), actor);
    case UpdatePayment(_, _) => PaymentCallEffect(w, e);
    case ConfirmPayment(_, _, _, _) => PaymentCallEffect(w, e);
    case ConfirmByFarmer(_, _, _) => PaymentCallEffect(w, e);
    case _ =>
  }

  // ---------- invariants of every run ----------

  function StatusAfter(history: seq<Change>): Status {
    if history == [] then ORDER_PLACED else history[|history| - 1].status
  }

  /** The status is the last entry of the history, or the first status. */
  predicate HistoryAgrees(order: Order) {
    order.status == StatusAfter(order.history)
  }

  /** Who confirmed what: a buyer's confirmation is the order's buyer's, of an amount near the total; a
      farmer's confirmation is the order's farmer's and follows the buyer's. */
  predicate PaymentOk(payment: Payment, order: Order) {
    && (payment.confirmedBy.Some? ==> payment.confirmedBy.value == order.buyer && Near(payment.amount, order.total))
    && (payment.farmerConfirmedBy.Some? ==> payment.farmerConfirmedBy.value == order.farmer && payment.confirmedBy.Some?)
    && (payment.status.CONFIRMED_BY_FARMER? ==> payment.farmerConfirmedBy.Some?)
  }

  function TimesEntered(history: seq<Change>, s: Status): nat {
    if history == [] then 0
    else TimesEntered(history[..|history| - 1], s) + if history[|history| - 1].status == s then 1 else 0
  }

  /** What the column holds: each pushed entry, followed by the trigger's when the status is another than before. */
  function Column(history: seq<Change>): seq<Entry> {
    if history == [] then []
    else
      var rest, last := history[..|history| - 1], history[|history| - 1];
      Column(rest) + [ByService(last)] + TriggerAppends(StatusAfter(rest), last.status)
  }

  lemma ColumnAfter(history: seq<Change>, c: Change)
    ensures Column(history + [c]) == Column(history) + [ByService(c)] + TriggerAppends(StatusAfter(history), c.status)
  {
    assert (history + [c])[..|history|] == history;
  }

  ghost predicate OrderOk(w: World, o: nat)
    requires o < |w.orders|
  {
    && HistoryAgrees(w.orders[o])
    && w.orders[o].column == Column(w.orders[o].history)
    && Stored(w.orders[o].status)
    && w.orders[o].quantity >= 0.0
    && I.TimesProcessed(w.ledger.log, o) <= TimesEntered(w.orders[o].history, PROCESSING)
  }

  /** No two orders share a batch. */
  predicate BatchesApart(orders: seq<Order>) {
    forall i, j :: 0 <= i < j < |orders| && orders[i].batch.Some? ==> orders[i].batch != orders[j].batch
  }

  ghost predicate Valid(w: World) {
    && I.Valid(w.ledger)
    && BatchesApart(w.orders)
    && (forall o: nat :: o < |w.orders| ==> OrderOk(w, o))
    && (forall o: nat :: o >= |w.orders| ==> I.TimesProcessed(w.ledger.log, o) == 0)
    && (forall o :: o in w.payments ==> o < |w.orders| && PaymentOk(w.payments[o], w.orders[o]))
  }

  /** No step touches the parties, the total or the quantity of an order. */
  lemma StepKeepsTerms(w: World, e: Event, o: nat)
    requires o < |w.orders|
    ensures o < |Step(w, e).orders|
    ensures var a, b := w.orders[o], Step(w, e).orders[o];
            a.buyer == b.buyer && a.farmer == b.farmer && a.total == b.total && a.quantity == b.quantity
            && a.batch == b.batch && a.listing == b.listing
  {
    StepEffect(w, e);
    hide Step, StatusOf, ActorOf, Deducted;
  }

  lemma OtherCallsKeepPayments(w: World, e: Event)
    requires !e.CreatePayment? && !e.UpdatePayment? && !e.ConfirmPayment? && !e.ConfirmByFarmer?
    ensures Step(w, e).payments == w.payments
  {
    hide Next, Check, Deduct, UpdateStatusStep;
    match e
    case UpdateStatus(o, s, actor) => UpdateEffect(w, o, s, actor);
    case StartProcessing(o, actor) => UpdateEffect(w, o, PROCESSING, actor);
    case MarkReady(o, actor) => UpdateEffect(w, o, READY_FOR_COLLECTION, actor);
    case RecordStockOut(o, actor) => UpdateEffect(w, o, StockOutStatus(w, o), actor);
    case _ =>
  }

  lemma StepKeepsPayments(w: World, e: Event, o: nat)
    requires Valid(w) && o in Step(w, e).payments
    ensures o < |w.orders| && PaymentOk(Step(w, e).payments[o], w.orders[o])
  {
    assert o in w.payments ==> o < |w.orders| && PaymentOk(w.payments[o], w.orders[o]);
    hide Next, Check, Valid, Deduct, UpdateStatusStep;
    match e
    case CreatePayment(_, _, _) =>
    case UpdatePayment(_, _) => PaymentCallEffect(w, e);
    case ConfirmPayment(_, _, _, _) => PaymentCallEffect(w, e);
    case ConfirmByFarmer(_, _, _) => PaymentCallEffect(w, e);
    case _ => OtherCallsKeepPayments(w, e); hide Step;
  }

  lemma TimesEnteredAfter(history: seq<Change>, c: Change, s: Status)
    ensures TimesEntered(history + [c], s) == TimesEntered(history, s) + if c.status == s then 1 else 0
  {
    assert (history + [c])[..|history|] == history;
  }

  /** Stock movements never count as processing; a deduction counts at most once, for its own order. */
  lemma MovementCounts(l: I.Ledger, m: I.Event, o: nat)
    ensures I.TimesProcessed(l.log, o) <= I.TimesProcessed(I.Step(l, m).log, o)
            <= I.TimesProcessed(l.log, o) + if m.Deduct? && m.order == o then 1 else 0
  {
    hide I.TimesProcessed;
    var l' := I.Step(l, m);
    if |l'.log| > |l.log| {
      I.Appended(l, I.NO_TX, l'.log[|l.log|], "", o);
    }
  }

  /** The ledger movement that goes with an order change. */
  lemma LedgerAfterChange(w: World, w': World, o: nat, s: Status, actor: nat, o': nat)
    requires Valid(w) && ChangesAtMost(w, w', o, s, actor)
    ensures I.Valid(w'.ledger)
    ensures I.TimesProcessed(w'.ledger.log, o')
            <= I.TimesProcessed(w.ledger.log, o')
               + if w'.orders != w.orders && o' == o && s.PROCESSING? then 1 else 0
  {
    hide I.Valid, I.TimesProcessed;
    if w'.ledger != w.ledger {
      assert OrderOk(w, o);
      var m := I.Deduct(o, w.orders[o].batch.value, w.orders[o].quantity);
      assert w'.ledger == I.Step(w.ledger, m);
      I.StepKeepsValid(w.ledger, m);
      MovementCounts(w.ledger, m, o');
      assert |Changed(w.orders[o], s, actor).history| == |w.orders[o].history| + 1;
      assert w'.orders[o] != w.orders[o];
    }
  }

  lemma StepKeepsLedger(w: World, e: Event)
    requires Valid(w) && Allowed(e)
    ensures I.Valid(Step(w, e).ledger)
  {
    StepEffect(w, e);
    hide Step, I.Valid, ChangesAtMost, StatusOf, ActorOf, I.Step, OrderOk;
    if e.Stock? {
      I.StepKeepsValid(w.ledger, e.movement);
    } else if !e.PlaceOrder? && !e.CreatePayment? {
      LedgerAfterChange(w, Step(w, e), e.o, StatusOf(w, e), ActorOf(w, e), 0);
    }
  }

  /** How often an order was deducted grows only when that order enters PROCESSING. */
  lemma StepCountsProcessing(w: World, e: Event, o: nat)
    requires Valid(w) && Allowed(e)
    ensures I.TimesProcessed(Step(w, e).ledger.log, o)
            <= I.TimesProcessed(w.ledger.log, o)
               + if !e.PlaceOrder? && !e.CreatePayment? && !e.Stock? && o == e.o && StatusOf(w, e).PROCESSING?
                    && Step(w, e).orders != w.orders then 1 else 0
  {
    StepEffect(w, e);
    hide Step, I.Valid, ChangesAtMost, StatusOf, ActorOf, I.Step, OrderOk, I.TimesProcessed;
    if e.Stock? {
      MovementCounts(w.ledger, e.movement, o);
    } else if !e.PlaceOrder? && !e.CreatePayment? {
      LedgerAfterChange(w, Step(w, e), e.o, StatusOf(w, e), ActorOf(w, e), o);
    }
  }

  /** The event is about one existing order. */
  predicate Concerns(e: Event, o: nat) {
    !e.PlaceOrder? && !e.CreatePayment? && !e.Stock? && e.o == o
  }

  /** One order through one step: as it was, changed once, or new. */
  lemma OrderAfter(w: World, e: Event, o: nat)
    requires o < |Step(w, e).orders|
    ensures if o >= |w.orders| then e.PlaceOrder? && Step(w, e).orders[o] == Placed(e)
            else Step(w, e).orders[o] == w.orders[o]
                 || (Concerns(e, o) && Step(w, e).orders != w.orders && Stored(StatusOf(w, e))
                     && Step(w, e).orders[o] == Changed(w.orders[o], StatusOf(w, e), ActorOf(w, e)))
  {
    StepEffect(w, e);
    hide Step, StatusOf, ActorOf, I.Step, Deducted;
  }

  lemma ChangedKeepsOk(before: World, after: World, o: nat, s: Status, actor: nat)
    requires o < |before.orders| && OrderOk(before, o) && Stored(s)
    requires o < |after.orders| && after.orders[o] == Changed(before.orders[o], s, actor)
    requires I.TimesProcessed(after.ledger.log, o)
             <= I.TimesProcessed(before.ledger.log, o) + if s.PROCESSING? then 1 else 0
    ensures OrderOk(after, o)
  {
    hide I.TimesProcessed, TimesEntered, Column;
    ColumnAfter(before.orders[o].history, Change(s, actor));
    TimesEnteredAfter(before.orders[o].history, Change(s, actor), PROCESSING);
  }

  lemma StepKeepsOrder(w: World, e: Event, o: nat)
    requires Valid(w) && Allowed(e) && o < |Step(w, e).orders|
    ensures OrderOk(Step(w, e), o)
  {
    hide Step, StatusOf, ActorOf, OrderOk, PaymentOk, Changed, Allowed, Placed, I.Valid;
    OrderAfter(w, e, o);
    assert o < |w.orders| ==> OrderOk(w, o);
    hide Valid;
    if o >= |w.orders| {
      NewOrderOk(w, e, o);
    } else if Step(w, e).orders[o] != w.orders[o] {
      StepCountsProcessing(w, e, o);
      ChangedKeepsOk(w, Step(w, e), o, StatusOf(w, e), ActorOf(w, e));
    } else {
      SameOrderNotCounted(w, e, o);
      SameOrderOk(w, Step(w, e), o);
    }
  }

  lemma SameOrderOk(w: World, w': World, o: nat)
    requires o < |w.orders| && o < |w'.orders| && w'.orders[o] == w.orders[o] && OrderOk(w, o)
    requires I.TimesProcessed(w'.ledger.log, o) <= I.TimesProcessed(w.ledger.log, o)
    ensures OrderOk(w', o)
  {
  }

  lemma NewOrderOk(w: World, e: Event, o: nat)
    requires Valid(w) && Allowed(e) && e.PlaceOrder?
    requires |w.orders| <= o < |Step(w, e).orders| && Step(w, e).orders[o] == Placed(e)
    ensures OrderOk(Step(w, e), o)
  {
    hide I.Valid;
    assert I.TimesProcessed(w.ledger.log, o) == 0;
  }

  lemma SameOrderNotCounted(w: World, e: Event, o: nat)
    requires Valid(w) && Allowed(e) && o < |w.orders| && o < |Step(w, e).orders|
    requires Step(w, e).orders[o] == w.orders[o]
    ensures I.TimesProcessed(Step(w, e).ledger.log, o) <= I.TimesProcessed(w.ledger.log, o)
  {
    StepCountsProcessing(w, e, o);
    StepEffect(w, e);
    hide Step, I.Step, I.Valid, I.TimesProcessed, TimesEntered, StatusOf, ActorOf, Deducted;
    if Concerns(e, o) {
      assert |Changed(w.orders[o], StatusOf(w, e), ActorOf(w, e)).history| == |w.orders[o].history| + 1;
    }
  }

  lemma StepKeepsBatches(w: World, e: Event)
    requires BatchesApart(w.orders)
    ensures BatchesApart(Step(w, e).orders)
  {
    StepEffect(w, e);
    hide Step, StatusOf, ActorOf, I.Step, Deducted;
  }

  lemma StepKeepsValid(w: World, e: Event)
    requires Valid(w) && Allowed(e)
    ensures Valid(Step(w, e))
  {
    var w' := Step(w, e);
    StepKeepsLedger(w, e);
    StepKeepsBatches(w, e);
    hide BatchesApart;
    hide Step, OrderOk, PaymentOk, I.Valid, I.TimesProcessed;
    forall o: nat | o < |w'.orders| ensures OrderOk(w', o) { StepKeepsOrder(w, e, o); }
    forall o: nat | o >= |w'.orders| ensures I.TimesProcessed(w'.ledger.log, o) == 0 {
      StepEffect(w, e);
      StepCountsProcessing(w, e, o);
    }
    forall o | o in w'.payments ensures o < |w'.orders| && PaymentOk(w'.payments[o], w'.orders[o]) {
      StepKeepsPayments(w, e, o);
      StepKeepsTerms(w, e, o);
      SamePartiesSamePayment(w'.payments[o], w.orders[o], w'.orders[o]);
    }
  }

  lemma SamePartiesSamePayment(payment: Payment, a: Order, b: Order)
    requires PaymentOk(payment, a) && a.buyer == b.buyer && a.farmer == b.farmer && a.total == b.total
    ensures PaymentOk(payment, b)
  {
  }

  ghost predicate AllAllowed(events: seq<Event>) {
    forall e :: e in events ==> Allowed(e)
  }

  lemma {:induction false} RunKeepsValid(w: World, events: seq<Event>)
    requires Valid(w) && AllAllowed(events)
    ensures Valid(Run(w, events))
    decreases |events|
  {
    if events != [] {
      hide Valid, Step, Allowed;
      StepKeepsValid(w, events[0]);
      RunKeepsValid(Step(w, events[0]), events[1..]);
    }
  }

  /** No orders, no payments, an empty ledger. */
  function Start(roles: map<nat, Role>, listings: map<nat, real>): World {
    World(roles, [], map[], listings, I.EMPTY)
  }

  // ---------- the history and the payment gate ----------

  /** For every actor and on every run, the status of an order is the last entry of its history and is never
      ORDER_REJECTED or REFUNDED, its stored column is the history with the trigger's entries, its payment names the right parties, it was deducted from its batch no
      more often than it entered PROCESSING, and no other order has its batch. */
  lemma EveryRun(roles: map<nat, Role>, listings: map<nat, real>, events: seq<Event>, o: nat)
    requires AllAllowed(events)
    ensures var w := Run(Start(roles, listings), events);
            && (o < |w.orders| ==>
                  && HistoryAgrees(w.orders[o])
                  && w.orders[o].column == Column(w.orders[o].history)
                  && Stored(w.orders[o].status)
                  && I.TimesProcessed(w.ledger.log, o) <= TimesEntered(w.orders[o].history, PROCESSING))
            && (o in w.payments ==> o < |w.orders| && PaymentOk(w.payments[o], w.orders[o]))
            && BatchesApart(w.orders)
  {
    var w := Start(roles, listings);
    assert I.Valid(w.ledger);
    RunKeepsValid(w, events);
    hide Run, AllAllowed, HistoryAgrees, Column, PaymentOk, TimesEntered, I.TimesProcessed, I.Valid, BatchesApart;
    w := Run(w, events);
    assert o < |w.orders| ==> OrderOk(w, o);
  }

  /** A party of the order who is not staff moves it from PAYMENT_SECURED to IN_TRANSIT exactly when the
      order's farmer has confirmed the payment. */
  lemma GateIff(w: World, o: nat, actor: nat)
    requires Valid(w) && o < |w.orders| && w.orders[o].status.PAYMENT_SECURED?
    requires (actor == w.orders[o].buyer || actor == w.orders[o].farmer) && !IsSystem(w, actor)
    ensures UpdateStatusStep(w, o, IN_TRANSIT, actor).1.Done?
            <==> o in w.payments && w.payments[o].status.CONFIRMED_BY_FARMER?
  {
  }

  /** The two confirmations behind a payment: the buyer's, of an amount within 0.01 of the total, and the farmer's. */
  predicate BothConfirmed(w: World, o: nat)
    requires o < |w.orders|
  {
    && o in w.payments
    && w.payments[o].confirmedBy == Some(w.orders[o].buyer)
    && Near(w.payments[o].amount, w.orders[o].total)
    && w.payments[o].farmerConfirmedBy == Some(w.orders[o].farmer)
  }

  lemma GateStep(w: World, e: Event, o: nat)
    requires Valid(w) && o < |w.orders| && w.orders[o].status.PAYMENT_SECURED?
    requires o < |Step(w, e).orders| && Step(w, e).orders[o].status.IN_TRANSIT?
    ensures e.UpdateStatus? && e.o == o && (IsSystem(w, e.actor) || BothConfirmed(w, o))
  {
    OrderAfter(w, e, o);
    assert Concerns(e, o) && StatusOf(w, e).IN_TRANSIT?;
    hide StatusOf, ActorOf, Changed, I.Valid, OrderOk, Deduct, Next;
    assert e.UpdateStatus?;
    assert Check(w, o, IN_TRANSIT, e.actor).Done?;
    if FarmerConfirmed(w, o) { assert PaymentOk(w.payments[o], w.orders[o]); }
  }

  /** In no reachable state does anyone but staff move an order from PAYMENT_SECURED to IN_TRANSIT without
      both confirmations. */
  lemma NoGoodsBeforeConfirmation(roles: map<nat, Role>, listings: map<nat, real>, events: seq<Event>, w: World,
                                  e: Event, o: nat)
    requires AllAllowed(events) && w == Run(Start(roles, listings), events)
    requires o < |w.orders| && w.orders[o].status.PAYMENT_SECURED?
    requires o < |Step(w, e).orders| && Step(w, e).orders[o].status.IN_TRANSIT?
    ensures e.UpdateStatus? && e.o == o && (IsSystem(w, e.actor) || BothConfirmed(w, o))
  {
    assert I.Valid(Start(roles, listings).ledger);
    RunKeepsValid(Start(roles, listings), events);
    hide Run, Step, Valid, AllAllowed;
    GateStep(w, e, o);
  }

  /** Once set, the farmer's confirmation stays. */
  predicate FarmerSet(w: World, o: nat) {
    o in w.payments && w.payments[o].farmerConfirmedBy.Some?
  }

  lemma StepKeepsFarmer(w: World, e: Event, o: nat)
    requires FarmerSet(w, o)
    ensures FarmerSet(Step(w, e), o)
  {
    match e
    case CreatePayment(_, _, _) =>
    case UpdatePayment(_, _) => PaymentCallEffect(w, e); hide Step, UpdateStatusStep, ChangesAtMost;
    case ConfirmPayment(_, _, _, _) => PaymentCallEffect(w, e); hide Step, UpdateStatusStep, ChangesAtMost;
    case ConfirmByFarmer(_, _, _) => PaymentCallEffect(w, e); hide Step, UpdateStatusStep, ChangesAtMost;
    case _ => OtherCallsKeepPayments(w, e); hide Step;
  }

  lemma {:induction false} RunKeepsFarmer(w: World, events: seq<Event>, o: nat)
    requires FarmerSet(w, o)
    ensures FarmerSet(Run(w, events), o)
    decreases |events|
  {
    if events != [] {
      hide Step, FarmerSet;
      StepKeepsFarmer(w, events[0], o);
      RunKeepsFarmer(Step(w, events[0]), events[1..], o);
    }
  }

  /** The farmer's confirmation of a payment succeeds at most once, whatever happens in between. */
  lemma FarmerConfirmsOnce(w: World, o: nat, farmer: nat, events: seq<Event>, again: bool, farmer': nat)
    requires ConfirmByFarmerStep(w, o, true, farmer).1.Done?
    ensures ConfirmByFarmerStep(Run(ConfirmByFarmerStep(w, o, true, farmer).0, events), o, again, farmer').1.Refused?
  {
    var w1 := ConfirmByFarmerStep(w, o, true, farmer).0;
    hide Run;
    assert FarmerSet(w1, o) by {
      hide Next, Check, Deduct;
      assert w1 == Step(w, ConfirmByFarmer(o, true, farmer));
    }
    RunKeepsFarmer(w1, events, o);
  }

  lemma StepKeepsOrders(w: World, e: Event)
    ensures |w.orders| <= |Step(w, e).orders|
  {
    StepEffect(w, e);
    hide Step, StatusOf, ActorOf, I.Step;
  }

  lemma {:induction false} RunKeepsOrders(w: World, events: seq<Event>)
    ensures |w.orders| <= |Run(w, events).orders|
    decreases |events|
  {
    if events != [] {
      hide Step;
      StepKeepsOrders(w, events[0]);
      RunKeepsOrders(Step(w, events[0]), events[1..]);
    }
  }

  // ---------- one deduction per order ----------

  /** An order enters READY_TO_PROCESS only with the farmer's confirmation, and PROCESSING only from there. */
  predicate ProcessedOnce(w: World, o: nat)
    requires o < |w.orders|
  {
    var order := w.orders[o];
    && TimesEntered(order.history, READY_TO_PROCESS) <= (if FarmerSet(w, o) then 1 else 0)
    && TimesEntered(order.history, PROCESSING) + (if order.status.READY_TO_PROCESS? then 1 else 0)
       <= TimesEntered(order.history, READY_TO_PROCESS)
  }

  /** The two statuses that only the dedicated entry points ask for. */
  lemma DedicatedOnly(w: World, e: Event, o: nat)
    requires Allowed(e) && Concerns(e, o) && o < |w.orders| && Step(w, e).orders != w.orders
    ensures StatusOf(w, e).READY_TO_PROCESS? ==> !FarmerSet(w, o) && FarmerSet(Step(w, e), o)
    ensures StatusOf(w, e).PROCESSING? ==> w.orders[o].status.READY_TO_PROCESS?
  {
    hide Next, Check, Deduct;
    match e
    case ConfirmByFarmer(_, _, _) => PaymentCallEffect(w, e);
    case _ =>
  }

  lemma StepKeepsOnce(w: World, e: Event, o: nat)
    requires Allowed(e) && o < |Step(w, e).orders|
    requires if o < |w.orders| then ProcessedOnce(w, o) else !FarmerSet(w, o)
    ensures ProcessedOnce(Step(w, e), o)
  {
    OrderAfter(w, e, o);
    if FarmerSet(w, o) { StepKeepsFarmer(w, e, o); }
    if o >= |w.orders| {
      NewNotProcessed(Step(w, e), e, o);
    } else if Step(w, e).orders[o] == w.orders[o] {
      hide Step, TimesEntered;
    } else {
      DedicatedOnly(w, e, o);
      hide Step, StatusOf, ActorOf, FarmerSet, Changed, Stored, ProcessedOnce;
      ChangedOnce(w, Step(w, e), o, StatusOf(w, e), ActorOf(w, e));
    }
  }

  lemma NewNotProcessed(w: World, e: Event, o: nat)
    requires e.PlaceOrder? && o < |w.orders| && w.orders[o] == Placed(e)
    ensures ProcessedOnce(w, o)
  {
  }

  lemma ChangedOnce(w: World, w': World, o: nat, s: Status, actor: nat)
    requires o < |w.orders| && o < |w'.orders| && ProcessedOnce(w, o) && w'.orders[o] == Changed(w.orders[o], s, actor)
    requires FarmerSet(w, o) ==> FarmerSet(w', o)
    requires s.READY_TO_PROCESS? ==> !FarmerSet(w, o) && FarmerSet(w', o)
    requires s.PROCESSING? ==> w.orders[o].status.READY_TO_PROCESS?
    ensures ProcessedOnce(w', o)
  {
    hide TimesEntered, FarmerSet, Changed;
    ChangedTimes(w.orders[o], s, actor);
  }

  lemma ChangedTimes(order: Order, s: Status, actor: nat)
    ensures Changed(order, s, actor).status == s
    ensures forall t: Status :: t.READY_TO_PROCESS? || t.PROCESSING? ==>
              TimesEntered(Changed(order, s, actor).history, t) == TimesEntered(order.history, t) + if s == t then 1 else 0
  {
    hide TimesEntered;
    TimesEnteredAfter(order.history, Change(s, actor), READY_TO_PROCESS);
    TimesEnteredAfter(order.history, Change(s, actor), PROCESSING);
  }

  lemma {:induction false} RunKeepsOnce(w: World, events: seq<Event>, o: nat)
    requires Valid(w) && AllAllowed(events) && o < |Run(w, events).orders|
    requires o < |w.orders| ==> ProcessedOnce(w, o)
    ensures ProcessedOnce(Run(w, events), o)
    decreases |events|
  {
    if events != [] {
      var e := events[0];
      assert o >= |w.orders| ==> !FarmerSet(w, o);
      hide Step, Valid, Allowed, ProcessedOnce, FarmerSet;
      StepKeepsValid(w, e);
      if o < |Step(w, e).orders| { StepKeepsOnce(w, e, o); }
      StepKeepsOrders(w, e);
      RunKeepsOnce(Step(w, e), events[1..], o);
    }
  }

  /** On every run, whoever acts, staff included, each order is deducted from its batch at most once: it enters
      PROCESSING at most once, and only after its farmer's confirmation. */
  lemma DeductedAtMostOnce(roles: map<nat, Role>, listings: map<nat, real>, events: seq<Event>, o: nat)
    requires AllAllowed(events) && o < |Run(Start(roles, listings), events).orders|
    ensures var w := Run(Start(roles, listings), events);
            && I.TimesProcessed(w.ledger.log, o) <= TimesEntered(w.orders[o].history, PROCESSING) <= 1
            && (TimesEntered(w.orders[o].history, PROCESSING) == 1 ==> FarmerSet(w, o))
  {
    EveryRun(roles, listings, events, o);
    assert I.Valid(Start(roles, listings).ledger);
    RunKeepsOnce(Start(roles, listings), events, o);
    hide Run, AllAllowed, TimesEntered, I.TimesProcessed, FarmerSet;
  }

  // ---------- refused processing ----------

  predicate ShortOfStock(w: World, o: nat)
    requires o < |w.orders|
  {
    var order := w.orders[o];
    order.batch.Some? && order.batch.value in w.ledger.items && order.quantity > w.ledger.items[order.batch.value]
  }

  /** A status change to PROCESSING is refused exactly when the checks refuse it or the batch holds too
      little. It then leaves orders, payments and inventory alone; but when the
      batch holds too little the listing has already been reduced, unless it was at zero. */
  lemma RefusedProcessing(w: World, o: nat, actor: nat)
    requires Valid(w)
    ensures var (w', r) := UpdateStatusStep(w, o, PROCESSING, actor);
            var checked := Check(w, o, PROCESSING, actor);
            && (r.Refused? <==> checked.Refused? || ShortOfStock(w, o))
            && (r.Refused? ==>
                  && w' == w.(listings := w'.listings)
                  && (w'.listings != w.listings <==>
                        checked.Done? && w.orders[o].listing.Some? && w.orders[o].listing.value in w.listings
                        && w.listings[w.orders[o].listing.value] != 0.0))
  {
    hide Next, Valid, I.Valid;
    if Check(w, o, PROCESSING, actor).Done? {
      var order := w.orders[o];
      assert I.BatchOk(w.ledger, order.batch.GetOr("")) by { BatchesOk(w, order.batch.GetOr("")); }
      if order.listing.Some? && order.listing.value in w.listings {
        var after := DeductListing(w, order).listings;
        assert after[order.listing.value] == if w.listings[order.listing.value] - order.quantity > 0.0
                                             then w.listings[order.listing.value] - order.quantity else 0.0;
        assert after == w.listings[order.listing.value := after[order.listing.value]];
        if after[order.listing.value] == w.listings[order.listing.value] { assert after == w.listings; }
      }
    }
  }

  /** Setting an order to PROCESSING changes the inventory exactly when it succeeds and the order's batch is in it;
      the batch then loses the order's quantity, once. */
  lemma DeductionIff(w: World, o: nat, actor: nat)
    requires Valid(w)
    ensures var (w', r) := UpdateStatusStep(w, o, PROCESSING, actor);
            if r.Done? && w.orders[o].batch.Some? && w.orders[o].batch.value in w.ledger.items then
              && I.TimesProcessed(w'.ledger.log, o) == I.TimesProcessed(w.ledger.log, o) + 1
              && I.OnHand(w'.ledger.items, w.orders[o].batch.value)
                 == I.OnHand(w.ledger.items, w.orders[o].batch.value) - w.orders[o].quantity
            else w'.ledger == w.ledger
  {
    hide Next, I.TimesProcessed, I.OnHand, I.BatchOk, I.DeductStep;
    if Check(w, o, PROCESSING, actor).Done? {
      var order := w.orders[o];
      BatchesOk(w, order.batch.GetOr(""));
      I.DeductIff(w.ledger, o, order.batch.GetOr(""), order.quantity);
      UpdateEffect(w, o, PROCESSING, actor);
    }
    hide Valid, Check;
  }

  /** The status change in a database that keeps inventory quantities positive. */
  function CheckedUpdateStatusStep(w: World, o: nat, s: Status, actor: nat): (World, Outcome) {
    var (w', r) := UpdateStatusStep(w, o, s, actor);
    if r.Done? && s.PROCESSING? && o < |w.orders| && w.orders[o].batch.Some? then
      (w'.(ledger := I.CheckedDeductStep(w.ledger, o, w.orders[o].batch.value, w.orders[o].quantity).0), r)
    else (w', r)
  }

  lemma DeductsThatBatch(w: World, o: nat, actor: nat)
    requires Check(w, o, PROCESSING, actor).Done? && o < |w.orders| && w.orders[o].batch.Some?
    ensures (UpdateStatusStep(w, o, PROCESSING, actor).0.ledger, UpdateStatusStep(w, o, PROCESSING, actor).1)
            == I.DeductStep(w.ledger, o, w.orders[o].batch.value, w.orders[o].quantity)
  {
    hide Check, I.DeductStep;
  }

  /** With that check the same status changes succeed, with the same effect on orders, payments and listings; the
      inventory changes exactly when the change succeeds, the batch is in it, and it holds more than the order takes. */
  lemma CheckedDeductionIff(w: World, o: nat, actor: nat)
    requires Valid(w) && (o < |w.orders| ==> w.orders[o].quantity > 0.0)
    ensures var (w', r) := CheckedUpdateStatusStep(w, o, PROCESSING, actor);
            var (unchecked, outcome) := UpdateStatusStep(w, o, PROCESSING, actor);
            && r == outcome && w'.(ledger := unchecked.ledger) == unchecked && I.Valid(w'.ledger)
            && if r.Done? && w.orders[o].batch.Some? && w.orders[o].batch.value in w.ledger.items
                  && w.orders[o].quantity < w.ledger.items[w.orders[o].batch.value] then
                 && I.TimesProcessed(w'.ledger.log, o) == I.TimesProcessed(w.ledger.log, o) + 1
                 && I.OnHand(w'.ledger.items, w.orders[o].batch.value)
                    == I.OnHand(w.ledger.items, w.orders[o].batch.value) - w.orders[o].quantity
               else w'.ledger == w.ledger
  {
    hide Next, I.TimesProcessed, I.OnHand, I.BatchOk, I.DeductStep, I.CheckedDeductStep, I.Valid, Deduct;
    UpdateEffect(w, o, PROCESSING, actor);
    DeductionIff(w, o, actor);
    if Check(w, o, PROCESSING, actor).Done? && w.orders[o].batch.Some? {
      var b, q := w.orders[o].batch.value, w.orders[o].quantity;
      I.WholeBatchStays(w.ledger, o, b, q);
      DeductsThatBatch(w, o, actor);
      RefusedProcessing(w, o, actor);
    }
  }

  lemma BatchesOk(w: World, b: string)
    requires Valid(w)
    ensures I.BatchOk(w.ledger, b)
  {
  }

  // ---------- who changes orders ----------

  /** The user may change the status of this order. */
  predicate MayChange(w: World, order: Order, user: nat) {
    user == order.buyer || user == order.farmer || Bypasses(w, user)
  }

  lemma StepByParty(w: World, e: Event, o: nat)
    requires Concerns(e, o) && o < |w.orders| && Step(w, e).orders != w.orders
    ensures MayChange(w, w.orders[o], ActorOf(w, e))
    ensures e.StartProcessing? || e.MarkReady? ==> IsSystem(w, e.actor)
    ensures e.MarkCollected? || e.ConfirmDelivery? || e.ConfirmPayment? ==> e.actor == w.orders[o].buyer
    ensures e.ConfirmByFarmer? ==> e.actor == w.orders[o].farmer
  {
    hide Next, Deduct;
    match e
    case UpdatePayment(_, _) => PaymentCallEffect(w, e);
    case ConfirmPayment(_, _, _, _) => PaymentCallEffect(w, e);
    case ConfirmByFarmer(_, _, _) => PaymentCallEffect(w, e);
    case _ =>
  }

  ghost predicate ByParties(w: World, o: nat)
    requires o < |w.orders|
  {
    forall i :: 0 <= i < |w.orders[o].history| ==> MayChange(w, w.orders[o], w.orders[o].history[i].actor)
  }

  lemma StepKeepsParties(w: World, e: Event, o: nat)
    requires o < |Step(w, e).orders|
    requires o < |w.orders| ==> ByParties(w, o)
    ensures ByParties(Step(w, e), o)
  {
    OrderAfter(w, e, o);
    StepEffect(w, e);
    hide Step, StatusOf, ActorOf, ChangesAtMost;
    if o < |w.orders| && Step(w, e).orders[o] != w.orders[o] {
      StepByParty(w, e, o);
    }
  }

  /** On every run, each change in an order's history was made in the name of its buyer, its farmer, or a user
      with a bypassing role. */
  lemma {:induction false} EveryChangeByParty(w: World, events: seq<Event>, o: nat)
    requires o < |w.orders| ==> ByParties(w, o)
    requires o < |Run(w, events).orders|
    ensures ByParties(Run(w, events), o)
    decreases |events|
  {
    if events != [] {
      hide Step, ByParties;
      StepKeepsOrders(w, events[0]);
      if o < |Step(w, events[0]).orders| { StepKeepsParties(w, events[0], o); }
      EveryChangeByParty(Step(w, events[0]), events[1..], o);
    }
  }
}

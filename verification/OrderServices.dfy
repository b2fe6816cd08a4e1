/** The marketplace and payment services over the tables they share. Every method is proved to make exactly the
    step the lifecycle theorems are about. */
module OrderServices {
  import opened Results
  import opened Roles
  import I = Inventory
  import opened Orders

  lemma DeductKeepsOrders(w: World, o: nat)
    requires o < |w.orders|
    ensures Deduct(w, o).0.orders == w.orders
  {
  }

  class OrderService {
    var roles: map<nat, Role>
    var orders: seq<Order>
    var payments: map<nat, Payment>
    var listings: map<nat, real>
    const stock: I.AggregationService

    ghost function State(): World
      reads this, stock
    {
      World(roles, orders, payments, listings, stock.State())
    }

    constructor (roles: map<nat, Role>, listings: map<nat, real>, stock: I.AggregationService)
      requires stock.State() == I.EMPTY
      ensures State() == Start(roles, listings) && this.stock == stock
    {
      this.roles, this.orders, this.payments, this.listings := roles, [], map[], listings;
      this.stock := stock;
    }

    /** The unique index on an order's batch. */
    method BatchTaken(batch: Option<string>) returns (taken: bool)
      ensures taken <==> BatchOrdered(orders, batch)
    {
      for i := 0 to |orders|
        invariant batch.Some? ==> forall j :: 0 <= j < i ==> orders[j].batch != batch
      {
        if batch.Some? && orders[i].batch == batch { return true; }
      }
      taken := false;
    }

    method PlaceOrder(order: Order) returns (r: Outcome)
      modifies this
      ensures (State(), r) == PlaceOrderStep(old(State()), order)
    {
      hide BatchOrdered;
      var taken := BatchTaken(order.batch);
      if taken { return Refused(ConstraintViolated); }
      orders := orders + [order];
      r := Done;
    }

    /** The row write that ends every status change: the new status, and its entry pushed on the history. The
        trigger on the table then appends to the column when the status is another than before. */
    method WriteStatus(o: nat, s: Status, actor: nat)
      requires o < |orders|
      modifies this
      ensures State() == WithStatus(old(State()), o, s, actor)
    {
      var was := orders[o];
      var change := Change(s, actor);
      var column := was.column + [ByService(change)];
      if was.status != s { column := column + [ByTrigger(s)]; }
      assert column == Changed(was, s, actor).column;
      orders := orders[o := was.(status := s, history := was.history + [change], column := column)];
    }

    /** What a status change checks before it writes anything: party or role, payment gate, table. */
    method CheckStatusChange(o: nat, s: Status, actor: nat) returns (r: Outcome)
      ensures r == Check(State(), o, s, actor)
    {
      hide Next;
      if o >= |orders| { return Refused(NotFound); }
      var order := orders[o];
      var isBuyerOrFarmer := order.buyer == actor || order.farmer == actor;
      var isSystemUser := actor in roles && SystemRole(roles[actor]);
      var isTransportProvider := actor in roles && roles[actor].TRANSPORT_PROVIDER?;
      if !isBuyerOrFarmer && !isSystemUser && !isTransportProvider { return Refused(BadRequest); }
      if order.status.PAYMENT_SECURED? && s.IN_TRANSIT? && !isSystemUser {
        if o !in payments || !payments[o].status.CONFIRMED_BY_FARMER? || payments[o].farmerConfirmedBy.None? {
          return Refused(BadRequest);
        }
      }
      if s !in Next(order.status) && !isSystemUser && !isTransportProvider { return Refused(BadRequest); }
      r := Done;
    }

    /** The deductions of an order that starts processing: from its listing, then from its batch. */
    method DeductQuantities(o: nat) returns (r: Outcome)
      requires o < |orders|
      modifies this, stock
      ensures (State(), r) == Deduct(old(State()), o)
    {
      var order := orders[o];
      if order.listing.Some? && order.listing.value in listings {
        var available := listings[order.listing.value] - order.quantity;
        listings := listings[order.listing.value := if available > 0.0 then available else 0.0];
      }
      r := Done;
      if order.batch.Some? {
        r := stock.DeductForOrder(o, order.batch.value, order.quantity);
      }
    }

    method UpdateOrderStatus(o: nat, s: Status, actor: nat) returns (r: Outcome)
      modifies this, stock
      ensures (State(), r) == UpdateStatusStep(old(State()), o, s, actor)
    {
      r := CheckStatusChange(o, s, actor);
      if r.Refused? { return; }
      assert o < |orders| by { hide Next; }
      hide Check, Deduct;
      if s.PROCESSING? {
        label before:
        r := DeductQuantities(o);
        if r.Refused? { return; }
        assert |orders| == old@before(|orders|) by { DeductKeepsOrders(old(State()), o); }
      } else if !Stored(s) {
        return Refused(ConstraintViolated);
      }
      WriteStatus(o, s, actor);
      r := Done;
    }

    method StartOrderProcessing(o: nat, actor: nat) returns (r: Outcome)
      modifies this, stock
      ensures (State(), r) == StartProcessingStep(old(State()), o, actor)
    {
      hide UpdateStatusStep;
      if o >= |orders| { return Refused(NotFound); }
      if !(actor in roles && SystemRole(roles[actor])) { return Refused(BadRequest); }
      if !orders[o].status.READY_TO_PROCESS? { return Refused(BadRequest); }
      r := UpdateOrderStatus(o, PROCESSING, actor);
    }

    method MarkOrderReadyForCollection(o: nat, actor: nat) returns (r: Outcome)
      modifies this, stock
      ensures (State(), r) == MarkReadyStep(old(State()), o, actor)
    {
      hide UpdateStatusStep;
      if o >= |orders| { return Refused(NotFound); }
      if !(actor in roles && SystemRole(roles[actor])) { return Refused(BadRequest); }
      if !orders[o].status.PROCESSING? { return Refused(BadRequest); }
      r := UpdateOrderStatus(o, READY_FOR_COLLECTION, actor);
    }

    /** The order part of a stock-out: released when ready for collection, out for delivery otherwise. */
    method RecordStockOut(o: nat, actor: nat) returns (r: Outcome)
      modifies this, stock
      ensures (State(), r) == UpdateStatusStep(old(State()), o, StockOutStatus(old(State()), o), actor)
    {
      hide Next, Deduct;
      if o >= |orders| { return Refused(NotFound); }
      hide UpdateStatusStep;
      var nextStatus := OUT_FOR_DELIVERY;
      if orders[o].status.READY_FOR_COLLECTION? { nextStatus := RELEASED; }
      r := UpdateOrderStatus(o, nextStatus, actor);
    }

    method MarkOrderAsCollected(o: nat, actor: nat) returns (r: Outcome)
      modifies this
      ensures (State(), r) == MarkCollectedStep(old(State()), o, actor)
    {
      if o >= |orders| { return Refused(NotFound); }
      if orders[o].buyer != actor { return Refused(BadRequest); }
      if !orders[o].status.RELEASED? { return Refused(BadRequest); }
      WriteStatus(o, COLLECTED, actor);
      r := Done;
    }

    method ConfirmDeliveryByBuyer(o: nat, actor: nat) returns (r: Outcome)
      modifies this
      ensures (State(), r) == ConfirmDeliveryStep(old(State()), o, actor)
    {
      if o >= |orders| { return Refused(NotFound); }
      if orders[o].buyer != actor { return Refused(BadRequest); }
      if !orders[o].transport { return Refused(BadRequest); }
      if !orders[o].status.DELIVERED? { return Refused(BadRequest); }
      WriteStatus(o, COMPLETED, actor);
      r := Done;
    }

    method CreatePayment(o: nat, amount: real, payer: nat) returns (r: Outcome)
      modifies this
      ensures (State(), r) == CreatePaymentStep(old(State()), o, amount, payer)
    {
      if o in payments || o >= |orders| { return Refused(ConstraintViolated); }
      payments := payments[o := Payment(amount, PENDING, payer, None, None)];
      r := Done;
    }

    method UpdatePaymentStatus(o: nat, requested: Requested) returns (r: Outcome)
      modifies this, stock
      ensures (State(), r) == UpdatePaymentStep(old(State()), o, requested)
    {
      hide UpdateStatusStep;
      if o !in payments { return Refused(NotFound); }
      var payment := payments[o];
      payments := payments[o := payment.(status := RequestedStatus(requested))];
      if requested.ToSecured? && !payment.status.SECURED? {
        // A refused status change is logged and dropped.
        var dropped := UpdateOrderStatus(o, PAYMENT_SECURED, payment.payer);
      }
      r := Done;
    }

    method ConfirmOrderPayment(o: nat, amount: real, confirmed: bool, buyer: nat) returns (r: Outcome)
      modifies this, stock
      ensures (State(), r) == ConfirmPaymentStep(old(State()), o, amount, confirmed, buyer)
    {
      hide UpdateStatusStep;
      if !confirmed { return Refused(BadRequest); }
      if o >= |orders| { return Refused(NotFound); }
      var order := orders[o];
      if order.buyer != buyer { return Refused(BadRequest); }
      if !order.status.ORDER_ACCEPTED? && !order.status.ORDER_PLACED? { return Refused(BadRequest); }
      var difference := if amount >= order.total then amount - order.total else order.total - amount;
      if difference > 0.01 { return Refused(BadRequest); }
      if o in payments {
        payments := payments[o := payments[o].(amount := amount, confirmedBy := Some(buyer), status := SECURED)];
      } else {
        payments := payments[o := Payment(amount, SECURED, buyer, Some(buyer), None)];
      }
      var dropped := UpdateOrderStatus(o, PAYMENT_SECURED, buyer);
      r := Done;
    }

    method ConfirmPaymentByFarmer(o: nat, confirmed: bool, farmer: nat) returns (r: Outcome)
      modifies this, stock
      ensures (State(), r) == ConfirmByFarmerStep(old(State()), o, confirmed, farmer)
    {
      hide UpdateStatusStep;
      if !confirmed { return Refused(BadRequest); }
      if o >= |orders| { return Refused(NotFound); }
      if orders[o].farmer != farmer { return Refused(BadRequest); }
      if o !in payments { return Refused(NotFound); }
      var payment := payments[o];
      if !payment.status.SECURED? || payment.confirmedBy.None? { return Refused(BadRequest); }
      if payment.farmerConfirmedBy.Some? { return Refused(BadRequest); }
      payments := payments[o := payment.(status := CONFIRMED_BY_FARMER, farmerConfirmedBy := Some(farmer))];
      var dropped := UpdateOrderStatus(o, READY_TO_PROCESS, farmer);
      r := Done;
    }
  }
}

/** Sourcing requests: units, supplier offers, and how accepted offers fulfil a request. */
module Sourcing {
  import opened Results

  // ---------- units ----------

  /** Any other unit counts as kilograms. */
  function ToKg(q: real, unit: string): real {
    if unit == "tons" then q * 1000.0 else if unit == "units" then q * 50.0 else q
  }

  function FromKg(kg: real, unit: string): real {
    if unit == "tons" then kg / 1000.0 else if unit == "units" then kg / 50.0 else kg
  }

  /** Equal units are left alone; others go through kilograms. */
  function Convert(q: real, from: string, to: string): real {
    if from == to then q else FromKg(ToKg(q, from), to)
  }

  /** Conversion keeps the weight, and undoes itself. */
  lemma ConvertKeepsWeight(q: real, from: string, to: string)
    ensures ToKg(Convert(q, from, to), to) == ToKg(q, from)
    ensures Convert(Convert(q, from, to), to, from) == q
    ensures ToKg(FromKg(q, to), to) == q
  {
  }

  /** Weights add up in any unit, and compare as the quantities do. */
  lemma ToKgIsLinear(p: real, q: real, unit: string)
    ensures ToKg(p + q, unit) == ToKg(p, unit) + ToKg(q, unit)
    ensures ToKg(p, unit) >= ToKg(q, unit) <==> p >= q
  {
  }

  // ---------- the tables ----------

  datatype RequestStatus = OPEN | URGENT | DRAFT | CLOSED | FULFILLED

  datatype Request = Request(buyer: nat, quantity: real, unit: string, status: RequestStatus, fulfilled: real)

  datatype OfferStatus = PENDING | ACCEPTED | REJECTED | CONVERTED

  datatype Offer = Offer(request: nat, farmer: nat, quantity: real, unit: string, batch: Option<string>, status: OfferStatus)

  /** Where an order comes from: an offer, an id that names no offer, or a listing, a negotiation or a quote. */
  datatype Source = FromOffer(offer: nat) | FromMissing(id: string) | Elsewhere

  /** An order; its quantity is in kilograms. */
  datatype Order = Order(source: Source, batch: string, quantity: real)

  /** A row's id is its index. */
  datatype World = World(requests: seq<Request>, offers: seq<Offer>, orders: seq<Order>)

  const EMPTY := World([], [], [])

  // ---------- the calls ----------

  function CreateRequestStep(w: World, buyer: nat, quantity: real, unit: Option<string>, publish: bool): World {
    w.(requests := w.requests + [Request(buyer, quantity, unit.GetOr("kg"), if publish then OPEN else DRAFT, 0.0)])
  }

  /** `other` says that another restricted field is given. */
  function UpdateRequestStep(w: World, r: nat, quantity: Option<real>, unit: Option<string>, other: bool, buyer: nat): (World, Outcome) {
    if r >= |w.requests| then (w, Refused(NotFound))
    else
      var request := w.requests[r];
      if request.buyer != buyer || request.status.CLOSED? || request.status.FULFILLED? then (w, Refused(BadRequest))
      else if (request.status.OPEN? || request.status.URGENT?) && (quantity.Some? || unit.Some? || other) then (w, Refused(BadRequest))
      else if request.status.DRAFT? then
        (w.(requests := w.requests[r := request.(quantity := quantity.GetOr(request.quantity), unit := unit.GetOr(request.unit))]), Done)
      else (w, Done)
  }

  /** Publishing and closing ask for the owner only, whatever the status was. */
  function SetStatusStep(w: World, r: nat, status: RequestStatus, buyer: nat): (World, Outcome) {
    if r >= |w.requests| then (w, Refused(NotFound))
    else if w.requests[r].buyer != buyer then (w, Refused(BadRequest))
    else (w.(requests := w.requests[r := w.requests[r].(status := status)]), Done)
  }

  function SubmitOfferStep(w: World, r: nat, quantity: real, unit: string, batch: Option<string>, late: bool, farmer: nat): (World, Outcome) {
    if r >= |w.requests| then (w, Refused(NotFound))
    else if !w.requests[r].status.OPEN? || late then (w, Refused(BadRequest))
    else (w.(offers := w.offers + [Offer(r, farmer, quantity, unit, batch, PENDING)]), Done)
  }

  predicate Linked(w: World) {
    && (forall i :: 0 <= i < |w.offers| ==> w.offers[i].request < |w.requests|)
    && SourcesExist(w, w.orders)
  }

  predicate SourcesExist(w: World, orders: seq<Order>) {
    forall i :: 0 <= i < |orders| && orders[i].source.FromOffer? ==> orders[i].source.offer < |w.offers|
  }

  /** The unique indexes of orders: one per offer, existing or not, and one per batch. */
  predicate Clashes(orders: seq<Order>, source: Source, batch: string) {
    exists i :: 0 <= i < |orders| && (orders[i].batch == batch || (!source.Elsewhere? && orders[i].source == source))
  }

  /** A request after one more offer counts towards it. */
  function Fulfil(request: Request, offer: Offer): Request {
    var fulfilled := request.fulfilled + Convert(offer.quantity, offer.unit, request.unit);
    request.(fulfilled := fulfilled, status := if fulfilled >= request.quantity then FULFILLED else request.status)
  }

  /** The order, the converted offer and the request it counts towards. */
  function ConvertOffer(w: World, o: nat, kg: real, batch: string): (World, Outcome)
    requires Linked(w) && o < |w.offers|
  {
    if Clashes(w.orders, FromOffer(o), batch) then (w, Refused(ConstraintViolated))
    else
      var offer := w.offers[o];
      (w.(orders := w.orders + [Order(FromOffer(o), batch, kg)],
          offers := w.offers[o := offer.(status := CONVERTED)],
          requests := w.requests[offer.request := Fulfil(w.requests[offer.request], offer)]),
       Done)
  }

  /** The offer is marked accepted before its batch is looked up and its order is created, and nothing undoes that. */
  function AcceptOfferStep(w: World, o: nat, inInventory: bool, buyer: nat): (World, Outcome)
    requires Linked(w)
  {
    if o >= |w.offers| then (w, Refused(NotFound))
    else
      var offer := w.offers[o];
      if w.requests[offer.request].buyer != buyer || !offer.status.PENDING? then (w, Refused(BadRequest))
      else
        var w1 := w.(offers := w.offers[o := offer.(status := ACCEPTED)]);
        if offer.batch.None? then (w1, Refused(BadRequest))
        else if !inInventory then (w1, Refused(NotFound))
        else ConvertOffer(w1, o, ToKg(offer.quantity, offer.unit), offer.batch.value)
  }

  /** Placing an order directly, with a generated batch. Of an offer it names, neither the status, nor who places the
      order, nor the quantity is checked; and if there is no such offer the order stays although the call fails. */
  function CreateOrderStep(w: World, source: Source, quantity: real, batch: string): (World, Outcome)
    requires Linked(w)
  {
    match source
    case FromOffer(o) => if o < |w.offers| then ConvertOffer(w, o, quantity, batch) else (w, Refused(NotFound))
    case FromMissing(_) =>
      if Clashes(w.orders, source, batch) then (w, Refused(ConstraintViolated))
      else (w.(orders := w.orders + [Order(source, batch, quantity)]), Refused(NotFound))
    case Elsewhere =>
      if Clashes(w.orders, source, batch) then (w, Refused(ConstraintViolated))
      else (w.(orders := w.orders + [Order(source, batch, quantity)]), Done)
  }

  datatype Event =
    | CreateRequest(buyer: nat, quantity: real, unitGiven: Option<string>, publish: bool)
    | UpdateRequest(r: nat, newQuantity: Option<real>, newUnit: Option<string>, other: bool, buyer: nat)
    | Publish(r: nat, buyer: nat)
    | Close(r: nat, buyer: nat)
    | SubmitOffer(r: nat, quantity: real, unit: string, batch: Option<string>, late: bool, farmer: nat)
    | AcceptOffer(o: nat, inInventory: bool, buyer: nat)
    | CreateOrder(source: Source, quantity: real, generated: string)

  function Step(w: World, e: Event): World
    requires Linked(w)
  {
    match e
    case CreateRequest(buyer, q, unit, publish) => CreateRequestStep(w, buyer, q, unit, publish)
    case UpdateRequest(r, q, unit, other, buyer) => UpdateRequestStep(w, r, q, unit, other, buyer).0
    case Publish(r, buyer) => SetStatusStep(w, r, OPEN, buyer).0
    case Close(r, buyer) => SetStatusStep(w, r, CLOSED, buyer).0
    case SubmitOffer(r, q, unit, batch, late, farmer) => SubmitOfferStep(w, r, q, unit, batch, late, farmer).0
    case AcceptOffer(o, inInventory, buyer) => AcceptOfferStep(w, o, inInventory, buyer).0
    case CreateOrder(source, q, generated) => CreateOrderStep(w, source, q, generated).0
  }

  // ---------- what counts ----------

  /** What an offer weighs. */
  function Weight(offer: Offer): real {
    ToKg(offer.quantity, offer.unit)
  }

  /** The order was made from an offer for request `r`. */
  predicate MadeFor(w: World, order: Order, r: nat)
    requires order.source.FromOffer? ==> order.source.offer < |w.offers|
  {
    order.source.FromOffer? && w.offers[order.source.offer].request == r
  }

  /** The kilograms of the offers that became orders for request `r`. */
  function Offered(w: World, orders: seq<Order>, r: nat): real
    requires SourcesExist(w, orders)
  {
    if orders == [] then 0.0
    else
      var last := orders[|orders| - 1];
      Offered(w, orders[..|orders| - 1], r) + if MadeFor(w, last, r) then Weight(w.offers[last.source.offer]) else 0.0
  }

  /** The kilograms of the orders made from offers for request `r`. */
  function Ordered(w: World, orders: seq<Order>, r: nat): real
    requires SourcesExist(w, orders)
  {
    if orders == [] then 0.0
    else
      var last := orders[|orders| - 1];
      Ordered(w, orders[..|orders| - 1], r) + if MadeFor(w, last, r) then last.quantity else 0.0
  }

  /** Offers keep everything but their status. */
  ghost predicate OffersKept(w: World, w': World) {
    |w.offers| <= |w'.offers|
    && forall i :: 0 <= i < |w.offers| ==> w'.offers[i] == w.offers[i].(status := w'.offers[i].status)
  }

  lemma {:induction false} SumsKept(w: World, w': World, orders: seq<Order>, r: nat)
    requires OffersKept(w, w') && SourcesExist(w, orders)
    ensures SourcesExist(w', orders)
    ensures Offered(w', orders, r) == Offered(w, orders, r) && Ordered(w', orders, r) == Ordered(w, orders, r)
  {
    if orders != [] {
      SumsKept(w, w', orders[..|orders| - 1], r);
      var source := orders[|orders| - 1].source;
      if source.FromOffer? {
        assert w'.offers[source.offer] == w.offers[source.offer].(status := w'.offers[source.offer].status);
      }
    }
  }

  lemma {:induction false} NothingOrdered(w: World, orders: seq<Order>, r: nat)
    requires SourcesExist(w, orders)
    requires forall i :: 0 <= i < |orders| ==> !MadeFor(w, orders[i], r)
    ensures Offered(w, orders, r) == 0.0 && Ordered(w, orders, r) == 0.0
  {
    if orders != [] { NothingOrdered(w, orders[..|orders| - 1], r); }
  }

  predicate FulfilledOk(w: World, r: nat)
    requires Linked(w) && r < |w.requests|
  {
    ToKg(w.requests[r].fulfilled, w.requests[r].unit) == Offered(w, w.orders, r)
  }

  /** Offers with orders are converted; an offer has one order and so has a batch. */
  ghost predicate OrdersUnique(w: World)
    requires Linked(w)
  {
    && (forall i :: 0 <= i < |w.orders| && w.orders[i].source.FromOffer? ==> w.offers[w.orders[i].source.offer].status.CONVERTED?)
    && (forall i, j :: 0 <= i < j < |w.orders| && !w.orders[i].source.Elsewhere? ==> w.orders[i].source != w.orders[j].source)
    && (forall i, j :: 0 <= i < j < |w.orders| ==> w.orders[i].batch != w.orders[j].batch)
  }

  ghost predicate Valid(w: World) {
    && Linked(w)
    && OffersOpen(w)
    && OrdersUnique(w)
    && (forall r: nat :: r < |w.requests| ==> FulfilledOk(w, r))
  }

  /** Marking the offer accepted first makes no difference to its conversion. */
  lemma AcceptedFirst(w: World, o: nat, kg: real, batch: string)
    requires Linked(w) && o < |w.offers| && !Clashes(w.orders, FromOffer(o), batch)
    ensures ConvertOffer(w.(offers := w.offers[o := w.offers[o].(status := ACCEPTED)]), o, kg, batch)
            == ConvertOffer(w, o, kg, batch)
  {
    var offer := w.offers[o];
    hide Clashes;
    assert w.offers[o := offer.(status := ACCEPTED)][o := offer.(status := CONVERTED)] == w.offers[o := offer.(status := CONVERTED)];
  }

  /** The event makes an order from an offer. */
  predicate Converts(w: World, e: Event)
    requires Linked(w)
  {
    || (e.AcceptOffer? && AcceptOfferStep(w, e.o, e.inInventory, e.buyer).1.Done?)
    || (e.CreateOrder? && e.source.FromOffer? && CreateOrderStep(w, e.source, e.quantity, e.generated).1.Done?)
  }

  /** The offer, the kilograms and the batch of the order it makes. */
  function OfferOf(e: Event): nat
    requires e.AcceptOffer? || (e.CreateOrder? && e.source.FromOffer?)
  {
    if e.AcceptOffer? then e.o else e.source.offer
  }

  function KgOf(w: World, e: Event): real
    requires (e.AcceptOffer? || (e.CreateOrder? && e.source.FromOffer?)) && OfferOf(e) < |w.offers|
  {
    if e.AcceptOffer? then Weight(w.offers[e.o]) else e.quantity
  }

  function BatchOf(w: World, e: Event): string
    requires (e.AcceptOffer? || (e.CreateOrder? && e.source.FromOffer?)) && OfferOf(e) < |w.offers|
  {
    if e.AcceptOffer? then w.offers[e.o].batch.GetOr("") else e.generated
  }

  lemma ConversionShape(w: World, e: Event)
    requires Linked(w) && Converts(w, e)
    ensures OfferOf(e) < |w.offers| && !Clashes(w.orders, FromOffer(OfferOf(e)), BatchOf(w, e))
    ensures Step(w, e) == ConvertOffer(w, OfferOf(e), KgOf(w, e), BatchOf(w, e)).0
  {
    hide Clashes, Fulfil, ToKg;
    if e.AcceptOffer? { AcceptedFirst(w, e.o, KgOf(w, e), BatchOf(w, e)); }
  }

  /** Without a conversion no offer gains an order and no request counts more. */
  lemma OtherShape(w: World, e: Event)
    requires Linked(w) && !Converts(w, e)
    ensures var w' := Step(w, e);
            && (w'.orders == w.orders
                || (e.CreateOrder? && !e.source.FromOffer? && !Clashes(w.orders, e.source, e.generated)
                    && w' == w.(orders := w.orders + [Order(e.source, e.generated, e.quantity)])))
            && (forall r :: 0 <= r < |w.requests| ==> w'.requests[r].fulfilled == w.requests[r].fulfilled)
            && (forall r :: |w.requests| <= r < |w'.requests| ==>
                  w'.requests[r].fulfilled == 0.0 && w'.offers == w.offers && w'.orders == w.orders)
  {
    hide Clashes, Fulfil, ToKg;
  }

  lemma OffersAfter(w: World, e: Event)
    requires Linked(w)
    ensures OffersKept(w, Step(w, e)) && |w.requests| <= |Step(w, e).requests|
  {
    hide Clashes, Fulfil, ToKg;
  }

  /** What a step does to one request: its quantity and unit change in a draft only, and it never becomes a draft again. */
  lemma RequestAfter(w: World, e: Event, r: nat)
    requires Linked(w) && r < |w.requests|
    ensures r < |Step(w, e).requests|
    ensures var a, b := w.requests[r], Step(w, e).requests[r];
            && b.buyer == a.buyer && (b.status.DRAFT? ==> a.status.DRAFT?)
            && (!a.status.DRAFT? ==> b.quantity == a.quantity && b.unit == a.unit)
  {
    hide ToKg, Convert, Clashes;
  }

  lemma StepKeepsLinked(w: World, e: Event)
    requires Linked(w)
    ensures Linked(Step(w, e))
  {
    hide ToKg, Convert, Clashes, Fulfil;
  }

  ghost predicate OffersOpen(w: World)
    requires Linked(w)
  {
    forall i :: 0 <= i < |w.offers| ==> !w.requests[w.offers[i].request].status.DRAFT?
  }

  lemma StepKeepsOffersOpen(w: World, e: Event, i: nat)
    requires Linked(w) && OffersOpen(w) && Linked(Step(w, e)) && i < |Step(w, e).offers|
    ensures !Step(w, e).requests[Step(w, e).offers[i].request].status.DRAFT?
  {
    var w' := Step(w, e);
    OffersAfter(w, e);
    if i < |w.offers| {
      assert w'.offers[i] == w.offers[i].(status := w'.offers[i].status);
      RequestAfter(w, e, w.offers[i].request);
      hide Step;
    } else {
      hide Clashes, Fulfil;
    }
  }

  lemma StepKeepsUnique(w: World, e: Event)
    requires Valid(w) && Linked(Step(w, e))
    ensures OrdersUnique(Step(w, e))
  {
    if Converts(w, e) {
      ConversionShape(w, e);
      hide Step, Converts, Fulfil, FulfilledOk;
    } else {
      OtherShape(w, e);
      OffersAfter(w, e);
      ConvertedStays(w, e);
      hide Step, Converts, FulfilledOk;
    }
  }

  lemma ConvertedStays(w: World, e: Event)
    requires Linked(w)
    ensures |w.offers| <= |Step(w, e).offers|
    ensures forall i :: 0 <= i < |w.offers| && w.offers[i].status.CONVERTED? ==> Step(w, e).offers[i].status.CONVERTED?
  {
    hide Clashes, Fulfil, ToKg;
  }

  /** One more order: the sums of the request its offer is for. */
  lemma ConvertedSums(w: World, o: nat, kg: real, batch: string, r: nat)
    requires Linked(w) && o < |w.offers| && !Clashes(w.orders, FromOffer(o), batch)
    ensures var w' := ConvertOffer(w, o, kg, batch).0;
            && Linked(w')
            && Offered(w', w'.orders, r) == Offered(w, w.orders, r) + (if w.offers[o].request == r then Weight(w.offers[o]) else 0.0)
            && Ordered(w', w'.orders, r) == Ordered(w, w.orders, r) + (if w.offers[o].request == r then kg else 0.0)
  {
    var w' := ConvertOffer(w, o, kg, batch).0;
    assert w'.orders[..|w.orders|] == w.orders;
    hide Clashes, Fulfil, ToKg;
    SumsKept(w, w', w.orders, r);
  }

  /** Without a conversion the sums stay. */
  lemma OtherSums(w: World, e: Event, r: nat)
    requires Linked(w) && !Converts(w, e)
    ensures var w' := Step(w, e);
            && Linked(w')
            && Offered(w', w'.orders, r) == Offered(w, w.orders, r) && Ordered(w', w'.orders, r) == Ordered(w, w.orders, r)
  {
    var w' := Step(w, e);
    StepKeepsLinked(w, e);
    OtherShape(w, e);
    OffersAfter(w, e);
    SumsKept(w, w', w.orders, r);
    hide Step, Converts, Clashes;
    if w'.orders != w.orders { assert w'.orders[..|w.orders|] == w.orders; }
  }

  /** And what an offer adds to the request's own figure, in kilograms. */
  lemma FulfilWeighs(request: Request, offer: Offer)
    ensures ToKg(Fulfil(request, offer).fulfilled, request.unit) == ToKg(request.fulfilled, request.unit) + Weight(offer)
  {
    ConvertKeepsWeight(offer.quantity, offer.unit, request.unit);
    ToKgIsLinear(request.fulfilled, Convert(offer.quantity, offer.unit, request.unit), request.unit);
    hide Convert, ToKg;
  }

  /** What a step adds to a request's figure and to the orders made for it, in kilograms. */
  lemma StepWeighs(w: World, e: Event, r: nat)
    requires Valid(w) && r < |Step(w, e).requests|
    ensures Linked(Step(w, e))
    ensures var w' := Step(w, e);
            var before := if r < |w.requests| then ToKg(w.requests[r].fulfilled, w.requests[r].unit) else 0.0;
            var counts := Converts(w, e) && OfferOf(e) < |w.offers| && w.offers[OfferOf(e)].request == r;
            && ToKg(w'.requests[r].fulfilled, w'.requests[r].unit)
               == before + (if counts then Weight(w.offers[OfferOf(e)]) else 0.0)
            && Offered(w', w'.orders, r) == Offered(w, w.orders, r) + (if counts then Weight(w.offers[OfferOf(e)]) else 0.0)
            && Ordered(w', w'.orders, r) == Ordered(w, w.orders, r) + (if counts then KgOf(w, e) else 0.0)
  {
    var w' := Step(w, e);
    StepKeepsLinked(w, e);
    if Converts(w, e) {
      ConversionShape(w, e);
      ConvertedSums(w, OfferOf(e), KgOf(w, e), BatchOf(w, e), r);
      FulfilWeighs(w.requests[w.offers[OfferOf(e)].request], w.offers[OfferOf(e)]);
      hide Step, Converts, Clashes, ToKg, Weight, Offered, Ordered, Linked, FulfilledOk;
    } else {
      OtherShape(w, e);
      OtherSums(w, e, r);
      if r < |w.requests| { OtherUnits(w, e, r); }
      hide Step, Converts, Clashes, Offered, Ordered, Linked, FulfilledOk;
    }
  }

  /** A unit changes in drafts only, which have counted nothing. */
  lemma OtherUnits(w: World, e: Event, r: nat)
    requires Valid(w) && !Converts(w, e) && r < |w.requests|
    ensures r < |Step(w, e).requests|
    ensures Step(w, e).requests[r].unit == w.requests[r].unit || w.requests[r].fulfilled == 0.0
  {
    RequestAfter(w, e, r);
    if w.requests[r].status.DRAFT? {
      assert FulfilledOk(w, r);
      forall i | 0 <= i < |w.orders| ensures !MadeFor(w, w.orders[i], r) {}
      NothingOrdered(w, w.orders, r);
      hide Step;
    }
  }

  lemma StepKeepsValid(w: World, e: Event)
    requires Valid(w)
    ensures Valid(Step(w, e))
  {
    StepKeepsLinked(w, e);
    StepKeepsUnique(w, e);
    forall i: nat | i < |Step(w, e).offers| ensures !Step(w, e).requests[Step(w, e).offers[i].request].status.DRAFT? {
      StepKeepsOffersOpen(w, e, i);
    }
    forall r: nat | r < |Step(w, e).requests| ensures FulfilledOk(Step(w, e), r) {
      StepWeighs(w, e, r);
      if r < |w.requests| { assert FulfilledOk(w, r); } else { NoneFor(w, r); }
      hide Step, Converts, ToKg, Weight, Offered, Ordered, Linked;
    }
    hide Step, FulfilledOk, OrdersUnique, Linked;
  }

  /** A request that is not there yet has no orders. */
  lemma NoneFor(w: World, r: nat)
    requires Linked(w) && r >= |w.requests|
    ensures Offered(w, w.orders, r) == 0.0 && Ordered(w, w.orders, r) == 0.0
  {
    forall i | 0 <= i < |w.orders| ensures !MadeFor(w, w.orders[i], r) {}
    NothingOrdered(w, w.orders, r);
  }

  function Run(w: World, events: seq<Event>): (r: World)
    requires Valid(w)
    ensures Valid(r)
    decreases |events|
  {
    if events == [] then w
    else
      StepKeepsValid(w, events[0]);
      Run(Step(w, events[0]), events[1..])
  }

  /** On every run, whatever the units: what a request counts as fulfilled weighs what the offers that became orders
      weigh, each offer became at most one order, and each batch belongs to at most one order. */
  lemma FulfilledIsOffered(events: seq<Event>, r: nat, i: nat, j: nat)
    ensures var w := Run(EMPTY, events);
            && Linked(w)
            && (r < |w.requests| ==> ToKg(w.requests[r].fulfilled, w.requests[r].unit) == Offered(w, w.orders, r))
            && (i < j < |w.orders| ==>
                  && w.orders[i].batch != w.orders[j].batch
                  && (w.orders[i].source.FromOffer? ==> w.orders[i].source != w.orders[j].source))
  {
    assert Valid(Run(EMPTY, events));
    hide Run, Offered, ToKg, Linked;
    assert r < |Run(EMPTY, events).requests| ==> FulfilledOk(Run(EMPTY, events), r);
  }

  // ---------- against the orders' own quantities ----------

  /** How far a request's figure is from the orders made for it, in kilograms. */
  function Drift(w: World, r: nat): real
    requires Linked(w) && r < |w.requests|
  {
    ToKg(w.requests[r].fulfilled, w.requests[r].unit) - Ordered(w, w.orders, r)
  }

  /** Only an order placed directly from an offer, for another quantity than the offer's, moves a request's figure away
      from its orders. */
  lemma StepDrift(w: World, e: Event, r: nat)
    requires Valid(w) && r < |Step(w, e).requests|
    ensures Linked(Step(w, e))
    ensures Drift(Step(w, e), r) - (if r < |w.requests| then Drift(w, r) else 0.0)
            == if e.CreateOrder? && Converts(w, e) && e.source.offer < |w.offers| && w.offers[e.source.offer].request == r
               then Weight(w.offers[e.source.offer]) - e.quantity else 0.0
  {
    StepWeighs(w, e, r);
    if r >= |w.requests| { NoneFor(w, r); }
    hide Step, Converts, ToKg, Weight, Offered, Ordered, Valid, Linked;
  }

  /** Orders placed directly from an offer are for what the offer weighs. */
  predicate Matching(w: World, e: Event) {
    e.CreateOrder? && e.source.FromOffer? && e.source.offer < |w.offers| ==> e.quantity == Weight(w.offers[e.source.offer])
  }

  predicate AllMatching(w: World, events: seq<Event>)
    requires Linked(w)
    decreases |events|
  {
    events == []
    || (Matching(w, events[0]) && Linked(Step(w, events[0])) && AllMatching(Step(w, events[0]), events[1..]))
  }

  lemma {:induction false} RunWithoutDrift(w: World, events: seq<Event>, r: nat)
    requires Valid(w) && AllMatching(w, events) && r < |Run(w, events).requests|
    requires r < |w.requests| ==> Drift(w, r) == 0.0
    ensures Linked(Run(w, events)) && Drift(Run(w, events), r) == 0.0
    decreases |events|
  {
    if events != [] {
      StepKeepsValid(w, events[0]);
      if r < |Step(w, events[0]).requests| { StepDrift(w, events[0], r); }
      hide Step, Drift, Valid, Weight;
      RunWithoutDrift(Step(w, events[0]), events[1..], r);
    }
  }

  /** On runs whose offers become orders by acceptance, or directly for what the offer weighs, what a request counts
      as fulfilled weighs exactly what its orders weigh, whatever mix of units is used. */
  lemma FulfilledIsOrdered(events: seq<Event>, r: nat)
    requires AllMatching(EMPTY, events) && r < |Run(EMPTY, events).requests|
    ensures var w := Run(EMPTY, events);
            Linked(w) && ToKg(w.requests[r].fulfilled, w.requests[r].unit) == Ordered(w, w.orders, r)
  {
    RunWithoutDrift(EMPTY, events, r);
  }

  lemma {:induction false} RunKeepsTerms(w: World, events: seq<Event>, r: nat)
    requires Valid(w) && r < |w.requests| && !w.requests[r].status.DRAFT?
    ensures r < |Run(w, events).requests|
    ensures var a, b := w.requests[r], Run(w, events).requests[r];
            a.quantity == b.quantity && a.unit == b.unit && a.buyer == b.buyer
    decreases |events|
  {
    if events != [] {
      StepKeepsValid(w, events[0]);
      RequestAfter(w, events[0], r);
      hide Step, Valid;
      RunKeepsTerms(Step(w, events[0]), events[1..], r);
    }
  }

  /** Once an offer exists, its request's unit and quantity never change. */
  lemma TermsFrozen(before: seq<Event>, o: nat, after: seq<Event>)
    requires o < |Run(EMPTY, before).offers|
    ensures var w := Run(EMPTY, before);
            var w' := Run(w, after);
            var r := w.offers[o].request;
            && r < |w.requests| && r < |w'.requests|
            && w'.requests[r].quantity == w.requests[r].quantity && w'.requests[r].unit == w.requests[r].unit
  {
    RunKeepsTerms(Run(EMPTY, before), after, Run(EMPTY, before).offers[o].request);
  }

  /** An acceptance that makes an order adds the offer's weight to what the request has, and leaves the request fulfilled
      exactly when the weight it asks for is reached, or it was already marked so. */
  lemma AcceptanceFulfils(w: World, o: nat, inInventory: bool, buyer: nat)
    requires Valid(w) && AcceptOfferStep(w, o, inInventory, buyer).1.Done?
    ensures var w' := AcceptOfferStep(w, o, inInventory, buyer).0;
            var a, b := w.requests[w.offers[o].request], w'.requests[w.offers[o].request];
            && ToKg(b.fulfilled, b.unit) == ToKg(a.fulfilled, a.unit) + w'.orders[|w.orders|].quantity
            && (b.status.FULFILLED? <==> ToKg(b.fulfilled, b.unit) >= ToKg(b.quantity, b.unit) || a.status.FULFILLED?)
  {
    var offer := w.offers[o];
    var a := w.requests[offer.request];
    FulfilWeighs(a, offer);
    ToKgIsLinear(Fulfil(a, offer).fulfilled, a.quantity, a.unit);
    AcceptedFirst(w, o, Weight(offer), offer.batch.value);
    hide ToKg, Convert, Valid, Clashes;
  }

  /** An offer that is no longer pending stays so. */
  lemma {:induction false} RunKeepsDecided(w: World, events: seq<Event>, o: nat)
    requires Valid(w) && o < |w.offers| && !w.offers[o].status.PENDING?
    ensures o < |Run(w, events).offers| && !Run(w, events).offers[o].status.PENDING?
    decreases |events|
  {
    if events != [] {
      StepKeepsValid(w, events[0]);
      OfferStaysDecided(w, events[0], o);
      hide Step, Valid;
      RunKeepsDecided(Step(w, events[0]), events[1..], o);
    }
  }

  lemma OfferStaysDecided(w: World, e: Event, o: nat)
    requires Valid(w) && o < |w.offers| && !w.offers[o].status.PENDING?
    ensures o < |Step(w, e).offers| && !Step(w, e).offers[o].status.PENDING?
  {
    hide FulfilledOk, ToKg, Convert, Clashes, Fulfil;
  }

  /** The owner's first attempt to accept an offer decides it, even when it is refused for want of a batch: no later
      acceptance succeeds. */
  lemma AcceptedOnce(w: World, o: nat, inInventory: bool, buyer: nat, events: seq<Event>, again: bool, buyer': nat)
    requires Valid(w) && o < |w.offers| && w.requests[w.offers[o].request].buyer == buyer
    ensures var w1 := AcceptOfferStep(w, o, inInventory, buyer).0;
            && Valid(w1)
            && Linked(Run(w1, events))
            && AcceptOfferStep(Run(w1, events), o, again, buyer').1.Refused?
  {
    var w1 := Step(w, AcceptOffer(o, inInventory, buyer));
    StepKeepsValid(w, AcceptOffer(o, inInventory, buyer));
    assert o < |w1.offers| && !w1.offers[o].status.PENDING? by { hide Valid, Clashes, Fulfil; }
    hide Step, Valid;
    RunKeepsDecided(w1, events, o);
    StaysLinked(Run(w1, events));
  }

  lemma StaysLinked(w: World)
    requires Valid(w)
    ensures Linked(w)
  {
  }

  /** An acceptance makes an order exactly when the request's owner accepts a pending offer whose batch is in the
      inventory and has no order yet; the offer itself never has one. */
  lemma AcceptedIff(w: World, o: nat, inInventory: bool, buyer: nat)
    requires Valid(w)
    ensures AcceptOfferStep(w, o, inInventory, buyer).1.Done?
            <==> && o < |w.offers| && w.offers[o].status.PENDING? && w.requests[w.offers[o].request].buyer == buyer
                 && w.offers[o].batch.Some? && inInventory
                 && forall i :: 0 <= i < |w.orders| ==> w.orders[i].batch != w.offers[o].batch.value
  {
    hide FulfilledOk, Fulfil, ToKg;
    if o < |w.offers| && w.offers[o].status.PENDING? {
      forall i | 0 <= i < |w.orders| ensures w.orders[i].source != FromOffer(o) {}
    }
  }

  /** One request of 100 kg and two offers of 10 kg that name one batch. */
  function TwoOffers(): seq<Event> {
    [CreateRequest(1, 100.0, Some("kg"), true),
     SubmitOffer(0, 10.0, "kg", Some("B"), false, 2),
     SubmitOffer(0, 10.0, "kg", Some("B"), false, 3)]
  }

  lemma RunOfThree(w: World, a: Event, b: Event, c: Event)
    requires Valid(w)
    ensures Valid(Step(w, a)) && Valid(Step(Step(w, a), b))
    ensures Run(w, [a, b, c]) == Step(Step(Step(w, a), b), c)
  {
    StepKeepsValid(w, a);
    StepKeepsValid(Step(w, a), b);
    StepKeepsValid(Step(Step(w, a), b), c);
    hide Valid, Step;
    var events := [a, b, c];
    assert events[1..] == [b, c] && [b, c][1..] == [c] && [c][1..] == [];
    assert Run(Step(Step(w, a), b), [c]) == Run(Step(Step(Step(w, a), b), c), []);
    assert Run(Step(w, a), [b, c]) == Run(Step(Step(w, a), b), [c]);
  }

  lemma AfterTwoOffers()
    ensures Run(EMPTY, TwoOffers())
            == World([Request(1, 100.0, "kg", OPEN, 0.0)],
                     [Offer(0, 2, 10.0, "kg", Some("B"), PENDING), Offer(0, 3, 10.0, "kg", Some("B"), PENDING)], [])
  {
    var events := TwoOffers();
    RunOfThree(EMPTY, events[0], events[1], events[2]);
    OneRequest(EMPTY);
    hide Valid, Run, Step;
    OneMoreOffer(Step(EMPTY, events[0]), 2);
    OneMoreOffer(Step(Step(EMPTY, events[0]), events[1]), 3);
  }

  lemma OneRequest(w: World)
    requires Valid(w)
    ensures Step(w, CreateRequest(1, 100.0, Some("kg"), true))
            == w.(requests := w.requests + [Request(1, 100.0, "kg", OPEN, 0.0)])
  {
    hide Valid;
  }

  lemma OneMoreOffer(w: World, supplier: nat)
    requires Valid(w) && |w.requests| > 0 && w.requests[0].status.OPEN?
    ensures Step(w, SubmitOffer(0, 10.0, "kg", Some("B"), false, supplier))
            == w.(offers := w.offers + [Offer(0, supplier, 10.0, "kg", Some("B"), PENDING)])
  {
    hide Valid;
  }

  /** A batch sold twice: once the first offer is accepted, accepting the second fails on the batch and leaves that
      offer accepted without an order. */
  lemma SharedBatchStuck()
    ensures var w := AcceptOfferStep(Run(EMPTY, TwoOffers()), 0, true, 1).0;
            && Valid(w)
            && var (w', r) := AcceptOfferStep(w, 1, true, 1);
               r == Refused(ConstraintViolated) && w'.offers[1].status.ACCEPTED? && w'.orders == w.orders && |w.orders| == 1
  {
    AfterTwoOffers();
    var w0 := Run(EMPTY, TwoOffers());
    hide Run, TwoOffers, Valid, Step, AcceptOfferStep;
    ValidIsLinked(w0);
    FirstAccepted(w0, 0, 1);
    var w := AcceptOfferStep(w0, 0, true, 1).0;
    BatchTakenRefuses(w, 1, 0, 1);
  }

  lemma ValidIsLinked(w: World)
    requires Valid(w)
    ensures Linked(w)
  {
  }

  /** The first acceptance of all makes an order of its batch and leaves the other offers alone. */
  lemma FirstAccepted(w: World, o: nat, buyer: nat)
    requires Valid(w) && w.orders == []
    requires o < |w.offers| && w.offers[o].status.PENDING? && w.offers[o].batch.Some?
    requires w.offers[o].request < |w.requests| && w.requests[w.offers[o].request].buyer == buyer
    ensures Linked(w)
    ensures var w' := AcceptOfferStep(w, o, true, buyer).0;
            && Valid(w') && Linked(w')
            && |w'.orders| == 1 && w'.orders[0].batch == w.offers[o].batch.value
            && |w'.offers| == |w.offers| && (forall i :: 0 <= i < |w.offers| && i != o ==> w'.offers[i] == w.offers[i])
            && |w'.requests| == |w.requests| && (forall r :: 0 <= r < |w.requests| ==> w'.requests[r].buyer == w.requests[r].buyer)
  {
    StepKeepsValid(w, AcceptOffer(o, true, buyer));
    ValidIsLinked(w);
    ValidIsLinked(Step(w, AcceptOffer(o, true, buyer)));
    hide Valid, Linked;
    AcceptedWrites(w, o, buyer);
  }

  lemma AcceptedWrites(w: World, o: nat, buyer: nat)
    requires Linked(w) && w.orders == []
    requires o < |w.offers| && w.offers[o].status.PENDING? && w.offers[o].batch.Some?
    requires w.requests[w.offers[o].request].buyer == buyer
    ensures var w' := AcceptOfferStep(w, o, true, buyer).0;
            && |w'.orders| == 1 && w'.orders[0].batch == w.offers[o].batch.value
            && |w'.offers| == |w.offers| && (forall i :: 0 <= i < |w.offers| && i != o ==> w'.offers[i] == w.offers[i])
            && |w'.requests| == |w.requests| && (forall r :: 0 <= r < |w.requests| ==> w'.requests[r].buyer == w.requests[r].buyer)
  {
  }

  lemma BatchTakenRefuses(w: World, o: nat, i: nat, buyer: nat)
    requires Linked(w) && o < |w.offers| && w.offers[o].status.PENDING? && w.requests[w.offers[o].request].buyer == buyer
    requires i < |w.orders| && w.offers[o].batch == Some(w.orders[i].batch)
    ensures var (w', r) := AcceptOfferStep(w, o, true, buyer);
            && r == Refused(ConstraintViolated) && w'.orders == w.orders
            && |w'.offers| == |w.offers| && w'.offers[o] == w.offers[o].(status := ACCEPTED)
  {
  }

  /** An order of 7 kg placed directly from an offer of 10 kg leaves the request 3 kg ahead of its orders. */
  lemma DriftHappens()
    ensures var w := CreateOrderStep(Run(EMPTY, TwoOffers()), FromOffer(0), 7.0, "G").0;
            Valid(w) && |w.requests| == 1 && Drift(w, 0) == 3.0
  {
    AfterTwoOffers();
    var w := Run(EMPTY, TwoOffers());
    hide Run, TwoOffers;
    var e := CreateOrder(FromOffer(0), 7.0, "G");
    StepKeepsValid(w, e);
    assert |Step(w, e).requests| == 1 && Converts(w, e) by { hide Valid; }
    assert Drift(w, 0) == 0.0;
    StepDrift(w, e, 0);
    assert Step(w, e) == CreateOrderStep(w, FromOffer(0), 7.0, "G").0;
  }

  // ---------- the service ----------

  class SourcingService {
    var requests: seq<Request>
    var offers: seq<Offer>
    var orders: seq<Order>

    ghost function State(): World
      reads this
    {
      World(requests, offers, orders)
    }

    constructor ()
      ensures State() == EMPTY
    {
      requests, offers, orders := [], [], [];
    }

    method CreateSourcingRequest(buyer: nat, quantity: real, unit: Option<string>, publishImmediately: bool)
      modifies this
      ensures State() == CreateRequestStep(old(State()), buyer, quantity, unit, publishImmediately)
    {
      var status := DRAFT;
      if publishImmediately { status := OPEN; }
      requests := requests + [Request(buyer, quantity, unit.GetOr("kg"), status, 0.0)];
    }

    method UpdateSourcingRequest(r: nat, quantity: Option<real>, unit: Option<string>, other: bool, buyer: nat) returns (result: Outcome)
      modifies this
      ensures (State(), result) == UpdateRequestStep(old(State()), r, quantity, unit, other, buyer)
    {
      if r >= |requests| { return Refused(NotFound); }
      var request := requests[r];
      if request.buyer != buyer { return Refused(BadRequest); }
      if request.status.CLOSED? || request.status.FULFILLED? { return Refused(BadRequest); }
      if request.status.OPEN? || request.status.URGENT? {
        if quantity.Some? || unit.Some? || other { return Refused(BadRequest); }
      }
      if request.status.DRAFT? {
        if quantity.Some? { request := request.(quantity := quantity.value); }
        if unit.Some? { request := request.(unit := unit.value); }
      }
      assert requests[r := requests[r]] == requests;
      requests := requests[r := request];
      result := Done;
    }

    method PublishSourcingRequest(r: nat, buyer: nat) returns (result: Outcome)
      modifies this
      ensures (State(), result) == SetStatusStep(old(State()), r, OPEN, buyer)
    {
      if r >= |requests| { return Refused(NotFound); }
      if requests[r].buyer != buyer { return Refused(BadRequest); }
      requests := requests[r := requests[r].(status := OPEN)];
      result := Done;
    }

    method CloseSourcingRequest(r: nat, buyer: nat) returns (result: Outcome)
      modifies this
      ensures (State(), result) == SetStatusStep(old(State()), r, CLOSED, buyer)
    {
      if r >= |requests| { return Refused(NotFound); }
      if requests[r].buyer != buyer { return Refused(BadRequest); }
      requests := requests[r := requests[r].(status := CLOSED)];
      result := Done;
    }

    method SubmitSupplierOffer(r: nat, quantity: real, unit: string, batch: Option<string>, late: bool, farmer: nat) returns (result: Outcome)
      modifies this
      ensures (State(), result) == SubmitOfferStep(old(State()), r, quantity, unit, batch, late, farmer)
    {
      if r >= |requests| { return Refused(NotFound); }
      if !requests[r].status.OPEN? { return Refused(BadRequest); }
      if late { return Refused(BadRequest); }
      offers := offers + [Offer(r, farmer, quantity, unit, batch, PENDING)];
      result := Done;
    }

    /** The conversion block, which the code holds twice. */
    method InRequestUnit(quantity: real, from: string, to: string) returns (converted: real)
      ensures converted == Convert(quantity, from, to)
      ensures ToKg(converted, to) == ToKg(quantity, from)
    {
      converted := quantity;
      if from != to {
        var kg := quantity;
        if from == "tons" {
          kg := quantity * 1000.0;
        } else if from == "units" {
          kg := quantity * 50.0;
        }
        if to == "tons" {
          converted := kg / 1000.0;
        } else if to == "units" {
          converted := kg / 50.0;
        } else {
          converted := kg;
        }
      }
      ConvertKeepsWeight(quantity, from, to);
    }

    /** The unique indexes of orders. */
    method OrderClashes(source: Source, batch: string) returns (found: bool)
      ensures found <==> Clashes(orders, source, batch)
    {
      for i := 0 to |orders|
        invariant forall j :: 0 <= j < i ==> orders[j].batch != batch && (source.Elsewhere? || orders[j].source != source)
      {
        if orders[i].batch == batch || (!source.Elsewhere? && orders[i].source == source) { return true; }
      }
      found := false;
    }

    /** Creates the order, links the offer to it, and counts it towards the request. */
    method CreateOrderFor(o: nat, kg: real, batch: string) returns (result: Outcome)
      requires Linked(State()) && o < |offers|
      modifies this
      ensures (State(), result) == ConvertOffer(old(State()), o, kg, batch)
    {
      hide Clashes;
      var clash := OrderClashes(FromOffer(o), batch);
      if clash { return Refused(ConstraintViolated); }
      var offer := offers[o];
      orders := orders + [Order(FromOffer(o), batch, kg)];
      offers := offers[o := offer.(status := CONVERTED)];
      var request := requests[offer.request];
      var added := InRequestUnit(offer.quantity, offer.unit, request.unit);
      var newFulfilled := request.fulfilled + added;
      var status := request.status;
      if newFulfilled >= request.quantity { status := FULFILLED; }
      requests := requests[offer.request := request.(fulfilled := newFulfilled, status := status)];
      result := Done;
    }

    method AcceptSupplierOffer(o: nat, inInventory: bool, buyer: nat) returns (result: Outcome)
      requires Linked(State())
      modifies this
      ensures (State(), result) == AcceptOfferStep(old(State()), o, inInventory, buyer)
    {
      if o >= |offers| { return Refused(NotFound); }
      var offer := offers[o];
      if requests[offer.request].buyer != buyer { return Refused(BadRequest); }
      if offer.status.ACCEPTED? { return Refused(BadRequest); }
      if offer.status.REJECTED? { return Refused(BadRequest); }
      if offer.status.CONVERTED? { return Refused(BadRequest); }
      offers := offers[o := offer.(status := ACCEPTED)];
      if offer.batch.None? { return Refused(BadRequest); }
      if !inInventory { return Refused(NotFound); }
      var kg := offer.quantity;
      if offer.unit == "tons" {
        kg := offer.quantity * 1000.0;
      } else if offer.unit == "units" {
        kg := offer.quantity * 50.0;
      }
      result := CreateOrderFor(o, kg, offer.batch.value);
    }

    /** The order row goes in first; only then is the offer looked up, and an unknown one fails the call. */
    method CreateOrder(source: Source, quantity: real, batch: string) returns (result: Outcome)
      requires Linked(State())
      modifies this
      ensures (State(), result) == CreateOrderStep(old(State()), source, quantity, batch)
    {
      hide Clashes;
      if source.FromOffer? {
        if source.offer >= |offers| { return Refused(NotFound); }
        result := CreateOrderFor(source.offer, quantity, batch);
      } else {
        var clash := OrderClashes(source, batch);
        if clash { return Refused(ConstraintViolated); }
        orders := orders + [Order(source, batch, quantity)];
        result := if source.FromMissing? then Refused(NotFound) else Done;
      }
    }
  }
}

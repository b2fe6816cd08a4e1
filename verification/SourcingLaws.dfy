/** What the sourcing calls answer and write, and which requests, offers and orders they leave alone. */
module SourcingLaws {
  import opened Results
  import opened Sourcing

  /** Weights: a ton is 1000 kg, a unit 50 kg, and any other unit a kilogram. */
  lemma UnitWeights(q: real, unit: string)
    ensures ToKg(q, unit) == q * ToKg(1.0, unit)
    ensures ToKg(1.0, "tons") == 1000.0 && ToKg(1.0, "units") == 50.0
    ensures unit != "tons" && unit != "units" ==> ToKg(1.0, unit) == 1.0
  {
  }

  predicate RequestsBut(w: World, w': World, r: nat) {
    |w'.requests| == |w.requests| && forall i :: 0 <= i < |w.requests| && i != r ==> w'.requests[i] == w.requests[i]
  }

  predicate OffersBut(w: World, w': World, o: nat) {
    |w'.offers| == |w.offers| && forall i :: 0 <= i < |w.offers| && i != o ==> w'.offers[i] == w.offers[i]
  }

  // ---------- requests ----------

  lemma RequestCreated(w: World, buyer: nat, quantity: real, unit: Option<string>, publish: bool)
    ensures var w' := CreateRequestStep(w, buyer, quantity, unit, publish);
            && w' == w.(requests := w'.requests) && |w'.requests| == |w.requests| + 1 && w'.requests[..|w.requests|] == w.requests
            && var request := w'.requests[|w.requests|];
               && (request.buyer, request.quantity, request.fulfilled) == (buyer, quantity, 0.0)
               && request.unit == (if unit.Some? then unit.value else "kg")
               && (if publish then request.status.OPEN? else request.status.DRAFT?)
  {
  }

  /** An update is answered exactly to the request's buyer, while the request is a draft, or open and no restricted field is given. It
      stores quantity and unit of a draft and nothing else. */
  lemma RequestUpdatedIff(w: World, r: nat, quantity: Option<real>, unit: Option<string>, other: bool, buyer: nat)
    ensures var (w', r') := UpdateRequestStep(w, r, quantity, unit, other, buyer);
            && (r'.Done? <==> && r < |w.requests| && w.requests[r].buyer == buyer
                              && (w.requests[r].status.DRAFT?
                                  || (w.requests[r].status in {OPEN, URGENT} && quantity.None? && unit.None? && !other)))
            && w' == w.(requests := w'.requests) && RequestsBut(w, w', r)
            && (r < |w.requests| ==>
                  && w'.requests[r].(quantity := w.requests[r].quantity, unit := w.requests[r].unit) == w.requests[r]
                  && w'.requests[r].quantity == (if r'.Done? && quantity.Some? then quantity.value else w.requests[r].quantity)
                  && w'.requests[r].unit == (if r'.Done? && unit.Some? then unit.value else w.requests[r].unit))
  {
  }

  /** A request is published or closed exactly by its buyer. */
  lemma StatusSetIff(w: World, r: nat, status: RequestStatus, buyer: nat)
    ensures var (w', r') := SetStatusStep(w, r, status, buyer);
            && (r'.Done? <==> r < |w.requests| && w.requests[r].buyer == buyer)
            && w' == w.(requests := w'.requests) && RequestsBut(w, w', r)
            && (r < |w.requests| ==> w'.requests[r] == w.requests[r].(status := if r'.Done? then status else w.requests[r].status))
    ensures Linked(w) ==> Step(w, Publish(r, buyer)) == SetStatusStep(w, r, OPEN, buyer).0
                          && Step(w, Close(r, buyer)) == SetStatusStep(w, r, CLOSED, buyer).0
  {
  }

  // ---------- offers and orders ----------

  /** An offer is taken exactly for a request that is open, in time; it is then the last offer, pending. */
  lemma OfferSubmittedIff(w: World, r: nat, quantity: real, unit: string, batch: Option<string>, late: bool, farmer: nat)
    ensures var (w', r') := SubmitOfferStep(w, r, quantity, unit, batch, late, farmer);
            && (r'.Done? <==> r < |w.requests| && w.requests[r].status.OPEN? && !late)
            && (r'.Refused? ==> w' == w)
            && (r'.Done? ==>
                  && w' == w.(offers := w'.offers) && |w'.offers| == |w.offers| + 1 && w'.offers[..|w.offers|] == w.offers
                  && var offer := w'.offers[|w.offers|];
                     (offer.request, offer.farmer, offer.quantity, offer.unit, offer.batch) == (r, farmer, quantity, unit, batch)
                     && offer.status.PENDING?)
  {
  }

  /** The offer was converted into the last order, of `kg` kilograms and `batch`, and counts towards its request; nothing else changed. */
  ghost predicate Converted(w: World, w': World, o: nat, kg: real, batch: string)
    requires Linked(w) && o < |w.offers|
  {
    var offer, r := w.offers[o], w.offers[o].request;
    && OffersBut(w, w', o) && w'.offers[o].status.CONVERTED? && w'.offers[o].(status := offer.status) == offer
    && |w'.orders| == |w.orders| + 1 && w'.orders[..|w.orders|] == w.orders
    && (w'.orders[|w.orders|].batch, w'.orders[|w.orders|].quantity) == (batch, kg) && w'.orders[|w.orders|].source == FromOffer(o)
    && RequestsBut(w, w', r)
    && (var request, request' := w.requests[r], w'.requests[r];
        && request'.(fulfilled := request.fulfilled, status := request.status) == request
        && ToKg(request'.fulfilled, request.unit) == ToKg(request.fulfilled, request.unit) + ToKg(offer.quantity, offer.unit)
        && request'.status == if request'.fulfilled >= request.quantity then FULFILLED else request.status)
  }

  /** No order has the batch or comes from the offer. */
  ghost predicate Free(w: World, o: nat, batch: string) {
    forall i :: 0 <= i < |w.orders| ==> w.orders[i].batch != batch && w.orders[i].source != FromOffer(o)
  }

  lemma ConvertedIff(w: World, o: nat, kg: real, batch: string)
    requires Linked(w) && o < |w.offers|
    ensures var (w', r) := ConvertOffer(w, o, kg, batch);
            && (r.Done? <==> Free(w, o, batch))
            && (r.Done? ==> Converted(w, w', o, kg, batch))
            && (r.Refused? ==> w' == w)
  {
    if !Clashes(w.orders, FromOffer(o), batch) {
      var offer := w.offers[o];
      var request := w.requests[offer.request];
      ConvertKeepsWeight(offer.quantity, offer.unit, request.unit);
      ToKgIsLinear(request.fulfilled, Convert(offer.quantity, offer.unit, request.unit), request.unit);
    }
    hide Convert, ToKg;
  }

  /** What an acceptance leaves: a converted offer and its order when it is answered Done; an accepted offer without an order when the buyer's
      acceptance of a pending offer fails later; and nothing new otherwise. */
  lemma AcceptanceWrites(w: World, o: nat, inInventory: bool, buyer: nat)
    requires Linked(w)
    ensures var (w', r) := AcceptOfferStep(w, o, inInventory, buyer);
            if r.Done? then
              && o < |w.offers| && w.offers[o].batch.Some? && w.offers[o].status.PENDING?
              && Converted(w, w', o, ToKg(w.offers[o].quantity, w.offers[o].unit), w.offers[o].batch.value)
            else if o < |w.offers| && w.offers[o].status.PENDING? && w.requests[w.offers[o].request].buyer == buyer then
              && w' == w.(offers := w'.offers) && OffersBut(w, w', o) && w'.offers[o] == w.offers[o].(status := ACCEPTED)
            else w' == w
  {
    if o < |w.offers| && w.offers[o].batch.Some? {
      var w1 := w.(offers := w.offers[o := w.offers[o].(status := ACCEPTED)]);
      ConvertedIff(w1, o, ToKg(w.offers[o].quantity, w.offers[o].unit), w.offers[o].batch.value);
    }
    hide ConvertOffer, ToKg;
  }

  /** A direct order is placed exactly when its batch is new and no order has its offer. From an offer, it converts the offer; from an id without an
      offer, the order stays but the answer is a failure. */
  lemma OrderedIff(w: World, source: Source, quantity: real, batch: string)
    requires Linked(w)
    ensures var (w', r) := CreateOrderStep(w, source, quantity, batch);
            var free := forall i :: 0 <= i < |w.orders| ==> w.orders[i].batch != batch && (source.Elsewhere? || w.orders[i].source != source);
            && (r.Done? <==> free && !source.FromMissing? && (source.FromOffer? ==> source.offer < |w.offers|))
            && (source.FromOffer? ==> if r.Done? then Converted(w, w', source.offer, quantity, batch) else w' == w)
            && (!source.FromOffer? ==>
                  && w' == w.(orders := w'.orders)
                  && if free then w'.orders == w.orders + [Order(source, batch, quantity)] else w'.orders == w.orders)
  {
    if source.FromOffer? && source.offer < |w.offers| { ConvertedIff(w, source.offer, quantity, batch); hide ConvertOffer; }
  }
}

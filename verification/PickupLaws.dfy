/** What the pickup calls answer and write, which rows they leave alone, and what a cancellation means for every later call. */
module PickupLaws {
  import opened Results
  import I = Inventory
  import opened Pickup

  // ---------- what stays ----------

  predicate SchedulesBut(w: World, w': World, s: nat) {
    |w'.schedules| == |w.schedules| && forall i :: 0 <= i < |w.schedules| && i != s ==> w'.schedules[i] == w.schedules[i]
  }

  predicate BookingsBut(w: World, w': World, b: nat) {
    |w'.bookings| == |w.bookings| && forall i :: 0 <= i < |w.bookings| && i != b ==> w'.bookings[i] == w.bookings[i]
  }

  predicate SlotsBut(w: World, w': World, k: nat) {
    |w'.slots| == |w.slots| && forall i :: 0 <= i < |w.slots| && i != k ==> w'.slots[i] == w.slots[i]
  }

  predicate NoReceipt(w: World, w': World) {
    w'.receipts == w.receipts && w'.ledger == w.ledger
  }

  // ---------- schedules ----------

  lemma ScheduleCreated(w: World, provider: nat, total: real)
    ensures var w' := CreateScheduleStep(w, provider, total);
            && w' == w.(schedules := w'.schedules) && |w'.schedules| == |w.schedules| + 1 && w'.schedules[..|w.schedules|] == w.schedules
            && var schedule := w'.schedules[|w.schedules|];
               && schedule.provider == provider && schedule.status.DRAFT?
               && (schedule.total, schedule.used, schedule.available) == (total, 0.0, total)
  {
  }

  /** A draft's total is changed, and a draft is published, by its provider only. */
  lemma DraftIff(w: World, s: nat, total: Option<real>, provider: nat)
    ensures var (w', r) := UpdateScheduleStep(w, s, total, provider);
            && (r.Done? <==> s < |w.schedules| && w.schedules[s].provider == provider && w.schedules[s].status.DRAFT?)
            && w' == w.(schedules := w'.schedules) && SchedulesBut(w, w', s)
            && (s < |w.schedules| ==>
                  && w'.schedules[s].total == (if r.Done? then total.GetOr(w.schedules[s].total) else w.schedules[s].total)
                  && (w'.schedules[s].used, w'.schedules[s].status, w'.schedules[s].provider)
                     == (w.schedules[s].used, w.schedules[s].status, w.schedules[s].provider)
                  && (r.Done? && total.Some? ==> w'.schedules[s].used + w'.schedules[s].available == w'.schedules[s].total)
                  && (r.Refused? || total.None? ==> w' == w))
    ensures var (w', r) := PublishStep(w, s, provider);
            && (r.Done? <==> s < |w.schedules| && w.schedules[s].provider == provider && w.schedules[s].status.DRAFT?)
            && w' == w.(schedules := w'.schedules) && SchedulesBut(w, w', s)
            && (s < |w.schedules| ==>
                  w'.schedules[s] == w.schedules[s].(status := if r.Done? then PUBLISHED else w.schedules[s].status))
  {
  }

  /** A schedule is cancelled exactly by its provider, unless it is completed or cancelled. Exactly its bookings
      are cancelled with it, each keeping its rest; no other schedule changes. */
  lemma CancelledIff(w: World, s: nat, provider: nat)
    requires Linked(w)
    ensures var (w', r) := CancelScheduleStep(w, s, provider);
            && (r.Done? <==> s < |w.schedules| && w.schedules[s].provider == provider
                             && !w.schedules[s].status.COMPLETED? && !w.schedules[s].status.CANCELLED?)
            && (r.Refused? ==> w' == w)
            && (r.Done? ==>
                  && SchedulesBut(w, w', s) && w'.schedules[s].status.CANCELLED?
                  && (w'.schedules[s].provider, w'.schedules[s].total) == (w.schedules[s].provider, w.schedules[s].total)
                  && |w'.bookings| == |w.bookings| && NoReceipt(w, w')
                  && forall i :: 0 <= i < |w.bookings| ==>
                       if w.bookings[i].schedule == s then
                         w'.bookings[i].(releases := 0, released := 0.0)
                         == w.bookings[i].(status := BOOKING_CANCELLED, releases := 0, released := 0.0)
                       else w'.bookings[i] == w.bookings[i])
  {
    if CancelScheduleStep(w, s, provider).1.Done? {
      BookingsOfAre(w.bookings, s);
      var ids := BookingsOf(w.bookings, s);
      var w' := CancelScheduleStep(w, s, provider).0;
      ReleaseKeepsReceipts(w, ids);
      forall i: nat | i < |w.bookings| ensures w'.bookings[i] == if w.bookings[i].schedule == s then Cancelled(w.bookings[i]) else w.bookings[i] {
        ReleaseAllAt(w, ids, i);
        InBookingsOf(w.bookings, s, i);
      }
    }
    hide Booked, ReleaseAll, BookingsOf, Linked;
  }

  function GivenBack(slot: Slot, q: real): Slot {
    slot.(used := slot.used - q, available := slot.available + q, status := AVAILABLE)
  }

  /** The loop gives each booking's quantity back to the booking's slot and leaves the other slots alone. */
  lemma {:induction false} SlotsReleased(w: World, ids: seq<nat>, k: nat)
    requires Linked(w) && OwnSlots(w) && Increasing(ids) && k < |w.slots|
    requires forall i :: 0 <= i < |ids| ==> ids[i] < |w.bookings|
    ensures forall i :: 0 <= i < |ids| && w.bookings[ids[i]].slot == k ==>
              ReleaseAll(w, ids).slots[k] == GivenBack(w.slots[k], w.bookings[ids[i]].quantity)
    ensures (forall i :: 0 <= i < |ids| ==> w.bookings[ids[i]].slot != k) ==> ReleaseAll(w, ids).slots[k] == w.slots[k]
  {
    if ids != [] {
      var rest, b := ids[..|ids| - 1], ids[|ids| - 1];
      SlotsReleased(w, rest, k);
      ReleaseAllAt(w, rest, b);
      IncreasingFront(ids);
      assert forall i :: 0 <= i < |rest| ==> rest[i] == ids[i] && rest[i] < b;
      hide ReleasesOk;
    }
  }

  /** With a schedule that is cancelled, the slots of its bookings are available again, each with its booking's quantity; no other slot changes. */
  lemma CancelledSlots(w: World, s: nat, provider: nat, k: nat)
    requires Linked(w) && OwnSlots(w) && CancelScheduleStep(w, s, provider).1.Done? && k < |w.slots|
    ensures var w' := CancelScheduleStep(w, s, provider).0;
            && |w'.slots| == |w.slots|
            && (forall b :: 0 <= b < |w.bookings| && w.bookings[b].schedule == s && w.bookings[b].slot == k ==>
                  w'.slots[k] == GivenBack(w.slots[k], w.bookings[b].quantity))
            && ((forall b :: 0 <= b < |w.bookings| && w.bookings[b].schedule == s ==> w.bookings[b].slot != k) ==> w'.slots[k] == w.slots[k])
  {
    BookingsOfAre(w.bookings, s);
    var ids := BookingsOf(w.bookings, s);
    SlotsReleased(w, ids, k);
    hide OwnSlots, ReleaseAll, BookingsOf, Booked, Linked;
    forall b: nat | b < |w.bookings| && w.bookings[b].schedule == s ensures b in ids { InBookingsOf(w.bookings, s, b); }
  }

  lemma {:induction false} ReleaseKeepsReceipts(w: World, ids: seq<nat>)
    requires Linked(w) && forall i :: 0 <= i < |ids| ==> ids[i] < |w.bookings|
    ensures NoReceipt(w, ReleaseAll(w, ids))
  {
    if ids != [] { ReleaseKeepsReceipts(w, ids[..|ids| - 1]); }
  }

  // ---------- bookings ----------

  /** A booking is made exactly on a schedule that is published or active and has room for it. It is then one booking of that
      farmer and quantity, with a full slot of its own; nothing else changes but the schedule's capacity. */
  lemma BookedIff(w: World, s: nat, q: real, farmer: nat)
    ensures var (w', r) := BookStep(w, s, q, farmer);
            && (r.Done? <==> s < |w.schedules| && (w.schedules[s].status.PUBLISHED? || w.schedules[s].status.ACTIVE?)
                             && w.schedules[s].used + q <= w.schedules[s].total)
            && (r.Refused? ==> w' == w)
            && (r.Done? ==>
                  && SchedulesBut(w, w', s) && NoReceipt(w, w')
                  && (w'.schedules[s].used, w'.schedules[s].available) == (w.schedules[s].used + q, w.schedules[s].available - q)
                  && (w'.schedules[s].status, w'.schedules[s].total, w'.schedules[s].provider)
                     == (w.schedules[s].status, w.schedules[s].total, w.schedules[s].provider)
                  && |w'.bookings| == |w.bookings| + 1 && w'.bookings[..|w.bookings|] == w.bookings
                  && |w'.slots| == |w.slots| + 1 && w'.slots[..|w.slots|] == w.slots
                  && (var booking := w'.bookings[|w.bookings|];
                      && (booking.schedule, booking.slot, booking.farmer, booking.quantity) == (s, |w.slots|, farmer, q)
                      && booking.status.BOOKING_CONFIRMED? && !booking.pickupConfirmed && booking.batch.None? && booking.receipt.None?)
                  && var slot := w'.slots[|w.slots|];
                     (slot.schedule, slot.capacity, slot.used, slot.available) == (s, q, q, 0.0) && slot.status.FULL?)
  {
  }

  /** A booking is cancelled exactly by its farmer before the pickup. Its slot and its schedule get its quantity back. */
  lemma BookingCancelledIff(w: World, b: nat, farmer: nat)
    requires Linked(w)
    ensures var (w', r) := CancelBookingStep(w, b, farmer);
            && (r.Done? <==> b < |w.bookings| && w.bookings[b].farmer == farmer && !w.bookings[b].status.PICKED_UP?)
            && (r.Refused? ==> w' == w)
            && (r.Done? ==>
                  var booking := w.bookings[b];
                  && BookingsBut(w, w', b) && SlotsBut(w, w', booking.slot) && SchedulesBut(w, w', booking.schedule) && NoReceipt(w, w')
                  && w'.bookings[b].status.BOOKING_CANCELLED?
                  && w'.bookings[b].(status := booking.status, releases := booking.releases, released := booking.released) == booking
                  && (var slot, slot' := w.slots[booking.slot], w'.slots[booking.slot];
                      && (slot'.used, slot'.available) == (slot.used - booking.quantity, slot.available + booking.quantity)
                      && (!slot.status.FULL? ==> slot'.status == slot.status)
                      && (slot.status.FULL? ==> slot'.status.BOOKED?)
                      && slot'.(used := slot.used, available := slot.available, status := slot.status) == slot)
                  && var schedule, schedule' := w.schedules[booking.schedule], w'.schedules[booking.schedule];
                     && (schedule'.used, schedule'.available) == (schedule.used - booking.quantity, schedule.available + booking.quantity)
                     && schedule'.(used := schedule.used, available := schedule.available) == schedule)
  {
  }

  /** A slot is created exactly for a schedule that exists, empty. */
  lemma SlotCreatedIff(w: World, s: nat, capacity: real)
    ensures var (w', r) := CreateSlotStep(w, s, capacity);
            && (r.Done? <==> s < |w.schedules|)
            && (r.Refused? ==> w' == w)
            && (r.Done? ==>
                  && w' == w.(slots := w'.slots) && |w'.slots| == |w.slots| + 1 && w'.slots[..|w.slots|] == w.slots
                  && var slot := w'.slots[|w.slots|];
                     (slot.schedule, slot.capacity, slot.used, slot.available) == (s, capacity, 0.0, capacity) && slot.status.AVAILABLE?)
  {
  }

  /** A confirmed pickup marks its booking and adds one receipt and one pending stock-in, both of the booking's quantity and of the
      caller's batch or the generated one. */
  lemma ConfirmationWrites(w: World, b: nat, batch: Option<string>, generated: string, arrived: bool, farmer: nat)
    requires ConfirmPickupStep(w, b, batch, generated, arrived, farmer).1.Done?
    ensures var w' := ConfirmPickupStep(w, b, batch, generated, arrived, farmer).0;
            var name := if batch.Some? then batch.value else generated;
            && b < |w.bookings| && BookingsBut(w, w', b) && w'.schedules == w.schedules && w'.slots == w.slots
            && w'.bookings[b].status.PICKED_UP? && w'.bookings[b].pickupConfirmed && w'.bookings[b].batch == Some(name)
            && w'.bookings[b].receipt == Some(|w.receipts|)
            && (w'.bookings[b].quantity, w'.bookings[b].farmer, w'.bookings[b].schedule, w'.bookings[b].slot)
               == (w.bookings[b].quantity, w.bookings[b].farmer, w.bookings[b].schedule, w.bookings[b].slot)
            && |w'.receipts| == |w.receipts| + 1 && w'.receipts[..|w.receipts|] == w.receipts
            && (w'.receipts[|w.receipts|].booking, w'.receipts[|w.receipts|].batch, w'.receipts[|w.receipts|].quantity)
               == (b, name, w.bookings[b].quantity)
            && w'.ledger == I.PendingStep(w.ledger, name, w.bookings[b].quantity, b)
  {
    hide ReceiptTaken;
  }

  // ---------- after a cancellation ----------

  /** A schedule's status moves from draft to published, or to cancelled, and never otherwise. */
  lemma StatusMoves(w: World, c: Call, s: nat)
    requires Linked(w) && s < |w.schedules|
    ensures s < |CallStep(w, c).schedules|
    ensures var before, after := w.schedules[s].status, CallStep(w, c).schedules[s].status;
            after == before || (before.DRAFT? && after.PUBLISHED?) || (!before.CANCELLED? && !before.COMPLETED? && after.CANCELLED?)
  {
    hide ReceiptTaken, BookingsOf, ReleaseAll, Booked;
    if c.CancelSchedule? { BookingsOfAre(w.bookings, c.s); }
  }

  /** The schedule is cancelled, and its bookings are among the first `n` and cancelled. */
  predicate Closed(w: World, s: nat, n: nat) {
    && s < |w.schedules| && w.schedules[s].status.CANCELLED?
    && forall i :: 0 <= i < |w.bookings| && w.bookings[i].schedule == s ==> i < n && w.bookings[i].status.BOOKING_CANCELLED?
  }

  lemma CallKeepsClosed(w: World, c: Call, s: nat, n: nat)
    requires Linked(w) && Closed(w, s, n)
    ensures Closed(CallStep(w, c), s, n)
  {
    StatusMoves(w, c, s);
    var w' := CallStep(w, c);
    NewBookings(w, c);
    if c.Book? { BookedIff(w, c.s, c.quantity, c.farmer); }
    forall i | 0 <= i < |w'.bookings| && w'.bookings[i].schedule == s ensures i < n && w'.bookings[i].status.BOOKING_CANCELLED? {
      if i < |w.bookings| { BookingAfter(w, c, i); }
    }
  }

  lemma {:induction false} RunKeepsClosed(rules: bool, w: World, calls: seq<Call>, s: nat, n: nat)
    requires Orderly(w) && AllValidated(calls) && Closed(w, s, n)
    ensures Closed(Run(rules, w, calls), s, n)
    decreases |calls|
  {
    if calls != [] {
      RuledStep(rules, w, calls[0]);
      assert Linked(w);
      hide Orderly, CallAnswer, CallStep, Validated, CapacitiesOk, Closed, Linked;
      CallKeepsClosed(w, calls[0], s, n);
      RunKeepsClosed(rules, Ruled(rules, w, CallAnswer(w, calls[0])).0, calls[1..], s, n);
    }
  }

  /** With and without the rules: after a cancellation of a schedule that is made, no later call books it, reopens it or revives one of
      its bookings. */
  lemma CancelledForGood(rules: bool, w: World, s: nat, provider: nat, calls: seq<Call>)
    requires Orderly(w) && AllValidated(calls)
    requires Ruled(rules, w, CallAnswer(w, Call.CancelSchedule(s, provider))).1.Done?
    ensures var after := Ruled(rules, w, CallAnswer(w, Call.CancelSchedule(s, provider))).0;
            && Orderly(after)
            && var end := Run(rules, after, calls);
               && s < |end.schedules| && end.schedules[s].status.CANCELLED?
               && forall i :: 0 <= i < |end.bookings| && end.bookings[i].schedule == s ==>
                    i < |w.bookings| && end.bookings[i].status.BOOKING_CANCELLED?
  {
    var c := Call.CancelSchedule(s, provider);
    RuledStep(rules, w, c);
    CancelledIff(w, s, provider);
    var after := Ruled(rules, w, CallAnswer(w, c)).0;
    assert Closed(after, s, |w.bookings|) by {
      hide Orderly, Recomputed, CapacitiesOk;
      CancelAnswer(w, s, provider);
    }
    hide Orderly, Run, Ruled, CallAnswer;
    RunKeepsClosed(rules, after, calls, s, |w.bookings|);
  }

  lemma CancelAnswer(w: World, s: nat, provider: nat)
    requires Linked(w)
    ensures CallAnswer(w, Call.CancelSchedule(s, provider)) == CancelScheduleStep(w, s, provider)
  {
  }
}

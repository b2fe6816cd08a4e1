/** The transport service over its tables, each method making exactly the step the capacity and provenance theorems
    are about. */
module PickupServices {
  import opened Results
  import I = Inventory
  import opened Pickup

  class TransportService {
    var schedules: seq<Schedule>
    var slots: seq<Slot>
    var bookings: seq<Booking>
    var receipts: seq<Receipt>
    const stock: I.AggregationService

    ghost function State(): World
      reads this, stock
    {
      World(schedules, slots, bookings, receipts, stock.State())
    }

    constructor (stock: I.AggregationService)
      requires stock.State() == I.EMPTY
      ensures State() == Start() && this.stock == stock
    {
      schedules, slots, bookings, receipts := [], [], [], [];
      this.stock := stock;
    }

    method CreatePickupSchedule(provider: nat, total: real)
      modifies this
      ensures State() == CreateScheduleStep(old(State()), provider, total)
    {
      schedules := schedules + [Schedule(provider, DRAFT, total, 0.0, total, 0.0)];
    }

    method UpdatePickupSchedule(s: nat, total: Option<real>, provider: nat) returns (r: Outcome)
      modifies this
      ensures (State(), r) == UpdateScheduleStep(old(State()), s, total, provider)
    {
      if s >= |schedules| { return Refused(NotFound); }
      var schedule := schedules[s];
      if schedule.provider != provider { return Refused(BadRequest); }
      if !schedule.status.DRAFT? { return Refused(BadRequest); }
      if total.Some? {
        schedules := schedules[s := schedule.(total := total.value, available := total.value - schedule.used,
                                              misread := 0.0)];
      }
      r := Done;
    }

    method PublishPickupSchedule(s: nat, provider: nat) returns (r: Outcome)
      modifies this
      ensures (State(), r) == PublishStep(old(State()), s, provider)
    {
      if s >= |schedules| { return Refused(NotFound); }
      if schedules[s].provider != provider { return Refused(BadRequest); }
      if !schedules[s].status.DRAFT? { return Refused(BadRequest); }
      schedules := schedules[s := schedules[s].(status := PUBLISHED)];
      r := Done;
    }

    /** Marks one booking cancelled and gives its quantity back to its slot. */
    method Release(b: nat, slotStatus: SlotStatus)
      requires Linked(State()) && b < |bookings|
      modifies this
      ensures State() == ReleaseBooking(old(State()), b, slotStatus)
    {
      var booking := bookings[b];
      bookings := bookings[b := booking.(status := BOOKING_CANCELLED, releases := booking.releases + 1,
                                         released := booking.released + booking.quantity)];
      var slot := slots[booking.slot];
      slots := slots[booking.slot := slot.(used := slot.used - booking.quantity,
                                           available := slot.available + booking.quantity, status := slotStatus)];
    }

    /** Cancels the bookings one by one, cancelled before or not, and adds up their quantities. */
    method ReleaseBookings(ids: seq<nat>) returns (totalBooked: real)
      requires Linked(State()) && Increasing(ids) && forall i :: 0 <= i < |ids| ==> ids[i] < |bookings|
      modifies this
      ensures State() == ReleaseAll(old(State()), ids)
      ensures totalBooked == Booked(old(bookings), ids)
    {
      hide Linked, ReleaseBooking;
      totalBooked := 0.0;
      ghost var start := State();
      for i := 0 to |ids|
        invariant Linked(State()) && State() == ReleaseAll(start, ids[..i])
        invariant totalBooked == Booked(start.bookings, ids[..i])
      {
        assert ids[..i + 1][..i] == ids[..i];
        ReleaseAllAt(start, ids[..i], ids[i]);
        totalBooked := totalBooked + bookings[ids[i]].quantity;
        Release(ids[i], AVAILABLE);
      }
      assert ids[..|ids|] == ids;
    }

    method CancelPickupSchedule(s: nat, provider: nat) returns (r: Outcome)
      requires Linked(State())
      modifies this
      ensures (State(), r) == CancelScheduleStep(old(State()), s, provider)
    {
      hide Linked, ReleaseAll, Booked, BookingsOf;
      if s >= |schedules| { return Refused(NotFound); }
      if schedules[s].provider != provider { return Refused(BadRequest); }
      if schedules[s].status.COMPLETED? || schedules[s].status.CANCELLED? { return Refused(BadRequest); }
      BookingsOfAre(bookings, s);
      var ids := FindBookings(s);
      var totalBooked := ReleaseBookings(ids);
      var schedule := schedules[s].(status := CANCELLED);
      schedules := schedules[s := schedule.(used := schedule.used - totalBooked, available := schedule.available + totalBooked)];
      r := Done;
    }

    /** The bookings of a schedule, in order. */
    method FindBookings(s: nat) returns (ids: seq<nat>)
      ensures ids == BookingsOf(bookings, s)
    {
      ids := [];
      for b := 0 to |bookings|
        invariant ids == BookingsOf(bookings[..b], s)
      {
        assert bookings[..b + 1][..b] == bookings[..b];
        if bookings[b].schedule == s { ids := ids + [b]; }
      }
      assert bookings[..|bookings|] == bookings;
    }

    method CreatePickupSlot(s: nat, capacity: real) returns (r: Outcome)
      modifies this
      ensures (State(), r) == CreateSlotStep(old(State()), s, capacity)
    {
      if s >= |schedules| { return Refused(ConstraintViolated); }
      slots := slots + [Slot(s, capacity, 0.0, capacity, AVAILABLE)];
      r := Done;
    }

    method BookPickupSlot(s: nat, quantity: real, farmer: nat) returns (r: Outcome)
      modifies this
      ensures (State(), r) == BookStep(old(State()), s, quantity, farmer)
    {
      if s >= |schedules| { return Refused(NotFound); }
      var schedule := schedules[s];
      if !schedule.status.PUBLISHED? && !schedule.status.ACTIVE? { return Refused(BadRequest); }
      if schedule.used + quantity > schedule.total { return Refused(BadRequest); }
      var slot := |slots|;
      slots := slots + [Slot(s, quantity, quantity, 0.0, FULL)];
      bookings := bookings + [Booking(slot, s, farmer, quantity, BOOKING_CONFIRMED, false, None, None, 0, 0.0)];
      schedules := schedules[s := schedule.(used := schedule.used + quantity, available := schedule.available - quantity)];
      r := Done;
    }

    method CancelPickupSlotBooking(b: nat, farmer: nat) returns (r: Outcome)
      requires Linked(State())
      modifies this
      ensures (State(), r) == CancelBookingStep(old(State()), b, farmer)
    {
      if b >= |bookings| { return Refused(NotFound); }
      var booking := bookings[b];
      if booking.farmer != farmer { return Refused(BadRequest); }
      if booking.status.PICKED_UP? { return Refused(BadRequest); }
      var status := slots[booking.slot].status;
      Release(b, if status.FULL? then BOOKED else status);
      var schedule := schedules[booking.schedule];
      schedules := schedules[booking.schedule := schedule.(used := schedule.used - booking.quantity,
                                                           available := schedule.available + booking.quantity)];
      r := Done;
    }

    /** The unique indexes of the receipts. */
    method HasReceipt(b: nat, batch: string) returns (taken: bool)
      ensures taken <==> ReceiptTaken(State(), b, batch)
    {
      for r := 0 to |receipts|
        invariant forall i :: 0 <= i < r ==> receipts[i].booking != b && receipts[i].batch != batch
      {
        if receipts[r].booking == b || receipts[r].batch == batch { return true; }
      }
      taken := false;
    }

    method ConfirmPickup(b: nat, batch: Option<string>, generated: string, arrived: bool, farmer: nat) returns (r: Outcome)
      modifies this, stock
      ensures (State(), r) == ConfirmPickupStep(old(State()), b, batch, generated, arrived, farmer)
    {
      if b >= |bookings| { return Refused(NotFound); }
      var booking := bookings[b];
      if booking.farmer != farmer { return Refused(BadRequest); }
      if booking.pickupConfirmed { return Refused(BadRequest); }
      if booking.status.BOOKING_CANCELLED? { return Refused(BadRequest); }
      if !arrived { return Refused(BadRequest); }
      var batchId := generated;
      if batch.Some? { batchId := batch.value; }
      var taken := HasReceipt(b, batchId);
      if taken { return Refused(ConstraintViolated); }
      var tx := stock.CreatePending(batchId, booking.quantity, b);
      bookings := bookings[b := booking.(status := PICKED_UP, pickupConfirmed := true, batch := Some(batchId),
                                         receipt := Some(|receipts|))];
      receipts := receipts + [Receipt(b, batchId, booking.quantity, tx)];
      r := Done;
    }
  }
}

/** Farm pickups: schedules and slots with their capacities, bookings and cancellations, and the pickup
    confirmation that starts a batch. Quantities are in kilograms. */
module Pickup {
  import opened Results
  import I = Inventory

  datatype ScheduleStatus = DRAFT | PUBLISHED | ACTIVE | COMPLETED | CANCELLED

  /** `misread` is specification only: the stored used capacity less the one that the last change of the total had read. */
  datatype Schedule = Schedule(provider: nat, status: ScheduleStatus, total: real, used: real, available: real, misread: real)

  datatype SlotStatus = AVAILABLE | BOOKED | FULL

  datatype Slot = Slot(schedule: nat, capacity: real, used: real, available: real, status: SlotStatus)

  datatype BookingStatus = BOOKING_CONFIRMED | BOOKING_CANCELLED | PICKED_UP

  /** `releases` and `released` are specification only: how often the booking's capacity was given back, and how
      much that was in all. */
  datatype Booking = Booking(slot: nat, schedule: nat, farmer: nat, quantity: real, status: BookingStatus,
                             pickupConfirmed: bool, batch: Option<string>, receipt: Option<nat>,
                             releases: nat, released: real)

  /** `tx` is not a column: it is the stock transaction the same confirmation creates. */
  datatype Receipt = Receipt(booking: nat, batch: string, quantity: real, tx: nat)

  /** The tables; a row's id is its index. */
  datatype World = World(schedules: seq<Schedule>, slots: seq<Slot>, bookings: seq<Booking>, receipts: seq<Receipt>,
                         ledger: I.Ledger)

  /** Every booking has its slot and its schedule. */
  predicate Linked(w: World) {
    forall i :: 0 <= i < |w.bookings| ==> w.bookings[i].slot < |w.slots| && w.bookings[i].schedule < |w.schedules|
  }

  // ---------- the writes, each one transaction ----------

  function Uses(schedule: Schedule, q: real): Schedule {
    schedule.(used := schedule.used + q, available := schedule.available - q)
  }

  /** The booking's own slot is born full. */
  function BookWrite(w: World, s: nat, q: real, farmer: nat): World
    requires s < |w.schedules|
  {
    w.(slots := w.slots + [Slot(s, q, q, 0.0, FULL)],
       bookings := w.bookings + [Booking(|w.slots|, s, farmer, q, BOOKING_CONFIRMED, false, None, None, 0, 0.0)],
       schedules := w.schedules[s := Uses(w.schedules[s], q)])
  }

  function Cancelled(b: Booking): Booking {
    b.(status := BOOKING_CANCELLED, releases := b.releases + 1, released := b.released + b.quantity)
  }

  /** Marks a booking cancelled and gives its quantity back to its slot, cancelled before or not. */
  function ReleaseBooking(w: World, b: nat, slotStatus: SlotStatus): (w': World)
    requires Linked(w) && b < |w.bookings|
    ensures Linked(w') && |w'.bookings| == |w.bookings| && |w'.slots| == |w.slots| && w'.schedules == w.schedules
  {
    var booking := w.bookings[b];
    var slot := w.slots[booking.slot];
    w.(bookings := w.bookings[b := Cancelled(booking)],
       slots := w.slots[booking.slot := slot.(used := slot.used - booking.quantity,
                                              available := slot.available + booking.quantity, status := slotStatus)])
  }

  function CancelBookingWrite(w: World, b: nat, slotStatus: SlotStatus): World
    requires Linked(w) && b < |w.bookings|
  {
    var s := w.bookings[b].schedule;
    ReleaseBooking(w, b, slotStatus).(schedules := w.schedules[s := Uses(w.schedules[s], -w.bookings[b].quantity)])
  }

  /** The loop over the bookings of a cancelled schedule. */
  function ReleaseAll(w: World, ids: seq<nat>): (w': World)
    requires Linked(w) && forall i :: 0 <= i < |ids| ==> ids[i] < |w.bookings|
    ensures Linked(w') && |w'.bookings| == |w.bookings| && |w'.slots| == |w.slots| && w'.schedules == w.schedules
  {
    if ids == [] then w else ReleaseBooking(ReleaseAll(w, ids[..|ids| - 1]), ids[|ids| - 1], AVAILABLE)
  }

  function Booked(bookings: seq<Booking>, ids: seq<nat>): real
    requires forall i :: 0 <= i < |ids| ==> ids[i] < |bookings|
  {
    if ids == [] then 0.0 else Booked(bookings, ids[..|ids| - 1]) + bookings[ids[|ids| - 1]].quantity
  }

  /** `ids` are the bookings that were read before the transaction. */
  function CancelScheduleWrite(w: World, s: nat, ids: seq<nat>): World
    requires Linked(w) && s < |w.schedules| && forall i :: 0 <= i < |ids| ==> ids[i] < |w.bookings|
  {
    var booked := Booked(w.bookings, ids);
    ReleaseAll(w, ids).(schedules := w.schedules[s := Uses(w.schedules[s].(status := CANCELLED), -booked)])
  }

  /** A booking has one receipt and so has a batch: unique indexes. */
  predicate ReceiptTaken(w: World, b: nat, batch: string) {
    exists r :: 0 <= r < |w.receipts| && (w.receipts[r].booking == b || w.receipts[r].batch == batch)
  }

  /** The receipt, the pending stock transaction and the booking's confirmation, in one transaction. */
  function ConfirmWrite(w: World, b: nat, batch: string): (World, Outcome)
    requires b < |w.bookings|
  {
    if ReceiptTaken(w, b, batch) then (w, Refused(ConstraintViolated))
    else
      var booking := w.bookings[b];
      (w.(receipts := w.receipts + [Receipt(b, batch, booking.quantity, |w.ledger.txs|)],
          ledger := I.PendingStep(w.ledger, batch, booking.quantity, b),
          bookings := w.bookings[b := booking.(status := PICKED_UP, pickupConfirmed := true, batch := Some(batch),
                                               receipt := Some(|w.receipts|))]),
       Done)
  }

  /** `seen` is the used capacity that the service read before the write. */
  function UpdateTotalWrite(w: World, s: nat, total: real, seen: real): World
    requires s < |w.schedules|
  {
    var schedule := w.schedules[s];
    w.(schedules := w.schedules[s := schedule.(total := total, available := total - seen, misread := schedule.used - seen)])
  }

  // ---------- the calls ----------

  function CreateScheduleStep(w: World, provider: nat, total: real): World {
    w.(schedules := w.schedules + [Schedule(provider, DRAFT, total, 0.0, total, 0.0)])
  }

  function UpdateScheduleStep(w: World, s: nat, total: Option<real>, provider: nat): (World, Outcome) {
    if s >= |w.schedules| then (w, Refused(NotFound))
    else if w.schedules[s].provider != provider || !w.schedules[s].status.DRAFT? then (w, Refused(BadRequest))
    else (if total.None? then w else UpdateTotalWrite(w, s, total.value, w.schedules[s].used), Done)
  }

  function PublishStep(w: World, s: nat, provider: nat): (World, Outcome) {
    if s >= |w.schedules| then (w, Refused(NotFound))
    else if w.schedules[s].provider != provider || !w.schedules[s].status.DRAFT? then (w, Refused(BadRequest))
    else (w.(schedules := w.schedules[s := w.schedules[s].(status := PUBLISHED)]), Done)
  }

  /** The ids of a schedule's bookings. */
  function BookingsOf(bookings: seq<Booking>, s: nat): seq<nat> {
    if bookings == [] then []
    else
      var n := |bookings| - 1;
      BookingsOf(bookings[..n], s) + if bookings[n].schedule == s then [n] else []
  }

  lemma {:induction false} InBookingsOf(bookings: seq<Booking>, s: nat, b: nat)
    ensures b in BookingsOf(bookings, s) <==> b < |bookings| && bookings[b].schedule == s
  {
    if bookings != [] {
      InBookingsOf(bookings[..|bookings| - 1], s, b);
    }
  }

  /** The ids are those of the schedule's bookings, each once, in order. */
  lemma {:induction false} BookingsOfAre(bookings: seq<Booking>, s: nat)
    ensures forall i :: 0 <= i < |BookingsOf(bookings, s)| ==>
              BookingsOf(bookings, s)[i] < |bookings| && bookings[BookingsOf(bookings, s)[i]].schedule == s
    ensures Increasing(BookingsOf(bookings, s))
  {
    var ids := BookingsOf(bookings, s);
    forall i | 0 <= i < |ids| ensures ids[i] < |bookings| && bookings[ids[i]].schedule == s {
      assert ids[i] in ids;
      InBookingsOf(bookings, s, ids[i]);
    }
    if bookings != [] {
      var rest := bookings[..|bookings| - 1];
      BookingsOfAre(rest, s);
      forall i | 0 <= i < |BookingsOf(rest, s)| ensures BookingsOf(rest, s)[i] < |rest| {}
    }
  }

  predicate Increasing(ids: seq<nat>) {
    forall i, j :: 0 <= i < j < |ids| ==> ids[i] < ids[j]
  }

  function CancelScheduleStep(w: World, s: nat, provider: nat): (World, Outcome)
    requires Linked(w)
  {
    if s >= |w.schedules| then (w, Refused(NotFound))
    else if w.schedules[s].provider != provider then (w, Refused(BadRequest))
    else if w.schedules[s].status.COMPLETED? || w.schedules[s].status.CANCELLED? then (w, Refused(BadRequest))
    else
      BookingsOfAre(w.bookings, s);
      (CancelScheduleWrite(w, s, BookingsOf(w.bookings, s)), Done)
  }

  function CreateSlotStep(w: World, s: nat, capacity: real): (World, Outcome) {
    if s >= |w.schedules| then (w, Refused(ConstraintViolated))
    else (w.(slots := w.slots + [Slot(s, capacity, 0.0, capacity, AVAILABLE)]), Done)
  }

  function BookStep(w: World, s: nat, q: real, farmer: nat): (World, Outcome) {
    if s >= |w.schedules| then (w, Refused(NotFound))
    else if !w.schedules[s].status.PUBLISHED? && !w.schedules[s].status.ACTIVE? then (w, Refused(BadRequest))
    else if w.schedules[s].used + q > w.schedules[s].total then (w, Refused(BadRequest))
    else (BookWrite(w, s, q, farmer), Done)
  }

  function CancelBookingStep(w: World, b: nat, farmer: nat): (World, Outcome)
    requires Linked(w)
  {
    if b >= |w.bookings| then (w, Refused(NotFound))
    else
      var booking := w.bookings[b];
      if booking.farmer != farmer || booking.status.PICKED_UP? then (w, Refused(BadRequest))
      else
        var status := w.slots[booking.slot].status;
        (CancelBookingWrite(w, b, if status.FULL? then BOOKED else status), Done)
  }

  /** `arrived` says that the scheduled time has come; `batch` is the caller's batch id, `generated` the fresh one. */
  function ConfirmPickupStep(w: World, b: nat, batch: Option<string>, generated: string, arrived: bool, farmer: nat): (World, Outcome) {
    if b >= |w.bookings| then (w, Refused(NotFound))
    else
      var booking := w.bookings[b];
      if booking.farmer != farmer || booking.pickupConfirmed || booking.status.BOOKING_CANCELLED? || !arrived then
        (w, Refused(BadRequest))
      else ConfirmWrite(w, b, batch.GetOr(generated))
  }

  // ---------- sums over the bookings of a schedule ----------

  /** What a booking counts for. `Held` is its quantity less all that was given back for it, `Live` its quantity
      unless it is cancelled, `Unreleased` its quantity unless it was released, `Returned` what was given
      back, and `Excess` what was given back beyond its quantity. */
  datatype Measure = Held | Live | Unreleased | Returned | Excess

  function Weight(b: Booking, m: Measure): real {
    match m
    case Held => b.quantity - b.released
    case Live => if b.status.BOOKING_CANCELLED? then 0.0 else b.quantity
    case Unreleased => if b.releases == 0 then b.quantity else 0.0
    case Returned => b.released
    case Excess => if b.status.BOOKING_CANCELLED? then b.released - b.quantity else 0.0
  }

  function Share(b: Booking, s: nat, m: Measure): real {
    if b.schedule == s then Weight(b, m) else 0.0
  }

  function Total(bookings: seq<Booking>, s: nat, m: Measure): real {
    if bookings == [] then 0.0
    else Total(bookings[..|bookings| - 1], s, m) + Share(bookings[|bookings| - 1], s, m)
  }

  lemma TotalAfterAppend(bookings: seq<Booking>, b: Booking, s: nat, m: Measure)
    ensures Total(bookings + [b], s, m) == Total(bookings, s, m) + Share(b, s, m)
  {
    assert (bookings + [b])[..|bookings|] == bookings;
  }

  lemma {:induction false} TotalAfterUpdate(bookings: seq<Booking>, i: nat, b: Booking, s: nat, m: Measure)
    requires i < |bookings|
    ensures Total(bookings[i := b], s, m) == Total(bookings, s, m) - Share(bookings[i], s, m) + Share(b, s, m)
  {
    hide Share;
    var n := |bookings| - 1;
    if i == n {
      assert bookings[i := b][..n] == bookings[..n];
    } else {
      assert bookings[i := b][..n] == bookings[..n][i := b];
      TotalAfterUpdate(bookings[..n], i, b, s, m);
    }
  }

  /** A sum of shares that are not negative is zero exactly when each of them is. */
  lemma {:induction false} ZeroTotalIff(bookings: seq<Booking>, s: nat, m: Measure)
    requires forall i :: 0 <= i < |bookings| ==> Share(bookings[i], s, m) >= 0.0
    ensures Total(bookings, s, m) >= 0.0
    ensures Total(bookings, s, m) == 0.0 <==> forall i :: 0 <= i < |bookings| ==> Share(bookings[i], s, m) == 0.0
  {
    hide Share;
    if bookings != [] {
      var n := |bookings| - 1;
      var rest := bookings[..n];
      assert forall i :: 0 <= i < n ==> rest[i] == bookings[i];
      ZeroTotalIff(rest, s, m);
      if Total(bookings, s, m) == 0.0 {
        forall i | 0 <= i < |bookings| ensures Share(bookings[i], s, m) == 0.0 {
          if i < n { assert Share(rest[i], s, m) == 0.0; }
        }
      }
    }
  }

  /** What is held is what is live less what was given back in excess, when nothing was given back for a live booking. */
  lemma {:induction false} HeldIsLiveLessExcess(bookings: seq<Booking>, s: nat)
    requires forall i :: 0 <= i < |bookings| ==> !bookings[i].status.BOOKING_CANCELLED? ==> bookings[i].released == 0.0
    ensures Total(bookings, s, Held) == Total(bookings, s, Live) - Total(bookings, s, Excess)
  {
    if bookings != [] {
      var rest := bookings[..|bookings| - 1];
      assert forall i :: 0 <= i < |rest| ==> rest[i] == bookings[i];
      HeldIsLiveLessExcess(rest, s);
    }
  }

  // ---------- every interleaving of the writes ----------

  /** The writes of the calls, without the checks that precede them: in an interleaving those may be out of date. */
  datatype Write =
    | NewSchedule(provider: nat, total: real)
    | SetTotal(s: nat, total: real, seen: real)
    | SetPublished(s: nat)
    | CancelSchedule(s: nat, ids: seq<nat>)
    | NewSlot(s: nat, capacity: real)
    | Book(s: nat, quantity: real, farmer: nat)
    | CancelBooking(b: nat, slotStatus: SlotStatus)
    | Confirm(b: nat, batch: string)
    | Stock(movement: I.Event)

  /** The rows a write names exist, the bookings a schedule's cancellation has read are the schedule's, and
      quantities are validated. Only a pickup confirmation creates pending transactions for a booking. */
  predicate Fits(w: World, c: Write) {
    match c
    case NewSchedule(_, _) => true
    case SetTotal(s, _, _) => s < |w.schedules|
    case SetPublished(s) => s < |w.schedules|
    case CancelSchedule(s, ids) =>
      s < |w.schedules| && forall i :: 0 <= i < |ids| ==> ids[i] < |w.bookings| && w.bookings[ids[i]].schedule == s
    case NewSlot(s, _) => s < |w.schedules|
    case Book(s, q, _) => s < |w.schedules| && q >= 0.0
    case CancelBooking(b, _) => b < |w.bookings|
    case Confirm(b, _) => b < |w.bookings|
    case Stock(m) => I.Allowed(m) && !m.Pending?
  }

  function Apply(w: World, c: Write): World
    requires Linked(w) && Fits(w, c)
  {
    match c
    case NewSchedule(provider, total) => CreateScheduleStep(w, provider, total)
    case SetTotal(s, total, seen) => UpdateTotalWrite(w, s, total, seen)
    case SetPublished(s) => w.(schedules := w.schedules[s := w.schedules[s].(status := PUBLISHED)])
    case CancelSchedule(s, ids) => CancelScheduleWrite(w, s, ids)
    case NewSlot(s, capacity) => CreateSlotStep(w, s, capacity).0
    case Book(s, q, farmer) => BookWrite(w, s, q, farmer)
    case CancelBooking(b, slotStatus) => CancelBookingWrite(w, b, slotStatus)
    case Confirm(b, batch) => ConfirmWrite(w, b, batch).0
    case Stock(m) => w.(ledger := I.Step(w.ledger, m))
  }

  /** A schedule's capacity is split, but for a misread figure, and what is used is what its bookings hold. */
  predicate ScheduleOk(w: World, s: nat)
    requires s < |w.schedules|
  {
    && w.schedules[s].used + w.schedules[s].available == w.schedules[s].total + w.schedules[s].misread
    && w.schedules[s].used == Total(w.bookings, s, Held)
  }

  predicate SlotOk(slot: Slot) {
    slot.used + slot.available == slot.capacity
  }

  /** Each release of a booking gave its quantity back. */
  predicate ReleasesOk(b: Booking) {
    && b.quantity >= 0.0
    && (b.releases == 0 ==> b.released == 0.0)
    && (b.releases == 1 ==> b.released == b.quantity)
    && (b.releases >= 2 ==> b.released >= 2.0 * b.quantity)
    && (b.quantity == 0.0 ==> b.released == 0.0)
  }

  /** Every booking has a slot of its own, of its size, from which its releases are taken. */
  predicate OwnSlots(w: World)
    requires Linked(w)
  {
    && (forall i :: 0 <= i < |w.bookings| ==>
          && ReleasesOk(w.bookings[i])
          && w.slots[w.bookings[i].slot].capacity == w.bookings[i].quantity
          && w.slots[w.bookings[i].slot].used == w.bookings[i].quantity - w.bookings[i].released)
    && (forall i, j :: 0 <= i < j < |w.bookings| ==> w.bookings[i].slot != w.bookings[j].slot)
  }

  ghost predicate Balanced(w: World) {
    && Linked(w)
    && OwnSlots(w)
    && (forall s: nat :: s < |w.schedules| ==> ScheduleOk(w, s))
    && SlotsOk(w.slots)
  }

  lemma ReleaseHolds(w: World, b: nat, slotStatus: SlotStatus, s: nat)
    requires Linked(w) && b < |w.bookings|
    ensures Total(ReleaseBooking(w, b, slotStatus).bookings, s, Held)
            == Total(w.bookings, s, Held) - if w.bookings[b].schedule == s then w.bookings[b].quantity else 0.0
  {
    TotalAfterUpdate(w.bookings, b, Cancelled(w.bookings[b]), s, Held);
  }

  predicate SlotsOk(slots: seq<Slot>) {
    forall k :: 0 <= k < |slots| ==> SlotOk(slots[k])
  }

  /** Through the loop: quantities and schedules of bookings stay, slots stay balanced. */
  lemma {:induction false} ReleaseAllKeeps(w: World, ids: seq<nat>)
    requires Linked(w) && SlotsOk(w.slots)
    requires forall i :: 0 <= i < |ids| ==> ids[i] < |w.bookings|
    ensures var w' := ReleaseAll(w, ids);
            && SlotsOk(w'.slots) && |w'.slots| == |w.slots| && w'.ledger == w.ledger && w'.receipts == w.receipts
            && (forall i :: 0 <= i < |w.bookings| ==>
                  w'.bookings[i] == w.bookings[i].(status := w'.bookings[i].status, releases := w'.bookings[i].releases,
                                                   released := w'.bookings[i].released))
  {
    if ids != [] {
      ReleaseAllKeeps(w, ids[..|ids| - 1]);
    }
  }

  lemma {:induction false} ReleaseAllHolds(w: World, ids: seq<nat>, s: nat, t: nat)
    requires Linked(w) && SlotsOk(w.slots)
    requires forall i :: 0 <= i < |ids| ==> ids[i] < |w.bookings| && w.bookings[ids[i]].schedule == s
    ensures Total(ReleaseAll(w, ids).bookings, t, Held)
            == Total(w.bookings, t, Held) - if t == s then Booked(w.bookings, ids) else 0.0
  {
    if ids != [] {
      var rest := ids[..|ids| - 1];
      ReleaseAllHolds(w, rest, s, t);
      ReleaseAllKeeps(w, rest);
      hide Total;
      ReleaseHolds(ReleaseAll(w, rest), ids[|ids| - 1], AVAILABLE, t);
    }
  }

  lemma {:induction false} NoneBooked(bookings: seq<Booking>, s: nat, m: Measure)
    requires forall i :: 0 <= i < |bookings| ==> bookings[i].schedule != s
    ensures Total(bookings, s, m) == 0.0
  {
    if bookings != [] {
      var rest := bookings[..|bookings| - 1];
      assert forall i :: 0 <= i < |rest| ==> rest[i] == bookings[i];
      NoneBooked(rest, s, m);
    }
  }

  lemma CancelScheduleKeeps(w: World, s: nat, ids: seq<nat>, t: nat)
    requires Balanced(w) && Fits(w, Write.CancelSchedule(s, ids))
    ensures var w' := CancelScheduleWrite(w, s, ids);
            Linked(w') && SlotsOk(w'.slots) && |w'.schedules| == |w.schedules| && (t < |w.schedules| ==> ScheduleOk(w', t))
  {
    ReleaseAllKeeps(w, ids);
    ReleaseAllHolds(w, ids, s, t);
    hide Total, Booked, SlotOk, ReleaseAll;
    assert t < |w.schedules| ==> ScheduleOk(w, t);
  }

  lemma CancelBookingKeeps(w: World, b: nat, slotStatus: SlotStatus, t: nat)
    requires Balanced(w) && b < |w.bookings|
    ensures var w' := CancelBookingWrite(w, b, slotStatus);
            Linked(w') && SlotsOk(w'.slots) && |w'.schedules| == |w.schedules| && (t < |w.schedules| ==> ScheduleOk(w', t))
  {
    ReleaseHolds(w, b, slotStatus, t);
    hide Total;
    assert t < |w.schedules| ==> ScheduleOk(w, t);
  }

  lemma BookKeeps(w: World, s: nat, q: real, farmer: nat, t: nat)
    requires Balanced(w) && s < |w.schedules|
    ensures var w' := BookWrite(w, s, q, farmer);
            Linked(w') && SlotsOk(w'.slots) && |w'.schedules| == |w.schedules| && (t < |w.schedules| ==> ScheduleOk(w', t))
  {
    var w' := BookWrite(w, s, q, farmer);
    TotalAfterAppend(w.bookings, w'.bookings[|w.bookings|], t, Held);
    hide Total;
    assert t < |w.schedules| ==> ScheduleOk(w, t);
  }

  lemma ConfirmKeeps(w: World, b: nat, batch: string, t: nat)
    requires Balanced(w) && b < |w.bookings|
    ensures var w' := ConfirmWrite(w, b, batch).0;
            Linked(w') && w'.slots == w.slots && w'.schedules == w.schedules && (t < |w.schedules| ==> ScheduleOk(w', t))
  {
    var w' := ConfirmWrite(w, b, batch).0;
    if w' != w {
      TotalAfterUpdate(w.bookings, b, w'.bookings[b], t, Held);
    }
    hide Total, ReceiptTaken;
    assert t < |w.schedules| ==> ScheduleOk(w, t);
  }

  lemma ApplyKeepsSchedule(w: World, c: Write, t: nat)
    requires Balanced(w) && Fits(w, c)
    ensures Linked(Apply(w, c)) && SlotsOk(Apply(w, c).slots)
    ensures t < |Apply(w, c).schedules| ==> ScheduleOk(Apply(w, c), t)
  {
    assert t < |w.schedules| ==> ScheduleOk(w, t);
    hide Total, CancelScheduleWrite, CancelBookingWrite, BookWrite, ConfirmWrite;
    match c
    case NewSchedule(_, _) => if t == |w.schedules| { NoneBooked(w.bookings, t, Held); }
    case CancelSchedule(s, ids) => CancelScheduleKeeps(w, s, ids, t);
    case Book(s, q, farmer) => BookKeeps(w, s, q, farmer, t);
    case CancelBooking(b, slotStatus) => CancelBookingKeeps(w, b, slotStatus, t);
    case Confirm(b, batch) => ConfirmKeeps(w, b, batch, t);
    case _ =>
  }

  lemma ReleaseKeepsOwn(w: World, b: nat, slotStatus: SlotStatus)
    requires Linked(w) && OwnSlots(w) && b < |w.bookings|
    ensures OwnSlots(ReleaseBooking(w, b, slotStatus))
  {
  }

  lemma {:induction false} ReleaseAllKeepsOwn(w: World, ids: seq<nat>)
    requires Linked(w) && OwnSlots(w) && forall i :: 0 <= i < |ids| ==> ids[i] < |w.bookings|
    ensures OwnSlots(ReleaseAll(w, ids))
  {
    if ids != [] {
      ReleaseAllKeepsOwn(w, ids[..|ids| - 1]);
      hide OwnSlots, Linked, ReleaseBooking;
      ReleaseKeepsOwn(ReleaseAll(w, ids[..|ids| - 1]), ids[|ids| - 1], AVAILABLE);
    }
  }

  lemma ApplyKeepsOwn(w: World, c: Write)
    requires Linked(w) && OwnSlots(w) && Fits(w, c) && Linked(Apply(w, c))
    ensures OwnSlots(Apply(w, c))
  {
    hide ReceiptTaken, Booked, ReleaseAll, ReleasesOk;
    match c
    case CancelSchedule(_, ids) => ReleaseAllKeepsOwn(w, ids);
    case CancelBooking(b, slotStatus) => ReleaseKeepsOwn(w, b, slotStatus);
    case Book(_, q, _) => NewReleasesOk(q);
    case Confirm(b, batch) => ConfirmKeepsOwn(w, b, batch);
    case _ =>
  }

  lemma ConfirmKeepsOwn(w: World, b: nat, batch: string)
    requires Linked(w) && OwnSlots(w) && b < |w.bookings|
    ensures Linked(ConfirmWrite(w, b, batch).0) && OwnSlots(ConfirmWrite(w, b, batch).0)
  {
    hide ReceiptTaken;
  }

  lemma NewReleasesOk(q: real)
    requires q >= 0.0
    ensures forall b: Booking :: b.quantity == q && b.releases == 0 && b.released == 0.0 ==> ReleasesOk(b)
  {
  }

  lemma ApplyKeepsBalanced(w: World, c: Write)
    requires Balanced(w) && Fits(w, c)
    ensures Balanced(Apply(w, c))
  {
    ApplyKeepsSchedule(w, c, 0);
    ApplyKeepsOwn(w, c);
    hide Apply, ScheduleOk, Fits, Linked, SlotsOk, OwnSlots;
    forall t: nat | t < |Apply(w, c).schedules| ensures ScheduleOk(Apply(w, c), t) {
      ApplyKeepsSchedule(w, c, t);
    }
  }

  // ---------- the capacity rules of the database ----------

  /** The two check constraints on capacities. */
  predicate CapacitiesOk(w: World) {
    && (forall s :: 0 <= s < |w.schedules| ==> w.schedules[s].total > 0.0 && 0.0 <= w.schedules[s].used <= w.schedules[s].total)
    && (forall k :: 0 <= k < |w.slots| ==> w.slots[k].capacity > 0.0 && 0.0 <= w.slots[k].used <= w.slots[k].capacity)
  }

  /** The two triggers, which recompute what is available. */
  function Recomputed(w: World): World {
    w.(schedules := seq(|w.schedules|, s requires 0 <= s < |w.schedules| =>
                          w.schedules[s].(available := w.schedules[s].total - w.schedules[s].used, misread := 0.0)),
       slots := seq(|w.slots|, k requires 0 <= k < |w.slots| =>
                      w.slots[k].(available := w.slots[k].capacity - w.slots[k].used)))
  }

  /** One transaction. Under the rules it is refused as a whole when a check fails. */
  function Commit(rules: bool, w: World, c: Write): World
    requires Linked(w) && Fits(w, c)
  {
    var w' := Apply(w, c);
    if !rules then w' else if CapacitiesOk(w') then Recomputed(w') else w
  }

  lemma RecomputedKeepsBalanced(w: World)
    requires Balanced(w)
    ensures Balanced(Recomputed(w))
    ensures CapacitiesOk(w) ==> CapacitiesOk(Recomputed(w))
  {
    hide Total, ReleasesOk;
    forall s: nat | s < |w.schedules| ensures ScheduleOk(Recomputed(w), s) { assert ScheduleOk(w, s); }
  }

  lemma CommitKeepsBalanced(rules: bool, w: World, c: Write)
    requires Balanced(w) && Fits(w, c)
    ensures Balanced(Commit(rules, w, c))
  {
    ApplyKeepsBalanced(w, c);
    hide Apply, Balanced, Fits, Recomputed, CapacitiesOk;
    if rules && CapacitiesOk(Apply(w, c)) { RecomputedKeepsBalanced(Apply(w, c)); }
  }

  /** The empty tables. */
  function Start(): (w: World)
    ensures Balanced(w) && Orderly(w) && Traced(w) && RulesKept(w)
  {
    var w := World([], [], [], [], I.EMPTY);
    NothingYet(w);
    w
  }

  lemma NothingYet(w: World)
    requires w.schedules == [] && w.slots == [] && w.bookings == [] && w.receipts == [] && w.ledger == I.EMPTY
    ensures Balanced(w) && Orderly(w) && Traced(w) && RulesKept(w)
  {
    NothingBooked(w);
    NothingTraced(w);
    NothingOverbooked(w);
    hide Balanced, Traced, BookingOk, WithinTotal, RulesKept;
  }

  lemma NothingOverbooked(w: World)
    requires w.schedules == [] && w.slots == []
    ensures RulesKept(w)
  {
  }

  lemma NothingTraced(w: World)
    requires w.bookings == [] && w.receipts == [] && w.ledger == I.EMPTY
    ensures Traced(w)
  {
    I.EmptyIsValid();
    hide I.Valid;
  }

  lemma NothingBooked(w: World)
    requires w.schedules == [] && w.slots == [] && w.bookings == []
    ensures Balanced(w)
  {
    hide Total;
  }

  /** Any sequence of writes, with or without the rules; one that does not fit is not made. */
  function Interleave(rules: bool, w: World, writes: seq<Write>): (r: World)
    requires Balanced(w)
    ensures Balanced(r)
    decreases |writes|
  {
    if writes == [] then w
    else if !Fits(w, writes[0]) then Interleave(rules, w, writes[1..])
    else
      CommitKeepsBalanced(rules, w, writes[0]);
      Interleave(rules, Commit(rules, w, writes[0]), writes[1..])
  }

  /** What the services alone keep, however their writes interleave: a slot's capacity is split into used and
      available, a schedule's used capacity is what its bookings hold, and a schedule's capacity is split exactly when
      the last change of its total had read the used capacity that was then stored: `misread` is the difference, and a
      change of the total that is written next, having read `seen`, splits exactly when `seen` is stored. */
  lemma CapacityIsSplit(writes: seq<Write>, s: nat, k: nat, total: real, seen: real)
    ensures var w := Interleave(false, Start(), writes);
            && (s < |w.schedules| ==>
                  && (w.schedules[s].used + w.schedules[s].available == w.schedules[s].total <==> w.schedules[s].misread == 0.0)
                  && w.schedules[s].used == Total(w.bookings, s, Held)
                  && var next := UpdateTotalWrite(w, s, total, seen).schedules[s];
                     (next.used + next.available == next.total <==> seen == w.schedules[s].used))
            && (k < |w.slots| ==> w.slots[k].used + w.slots[k].available == w.slots[k].capacity)
  {
    hide Interleave, Start, Balanced, UpdateTotalWrite;
    var w := Interleave(false, Start(), writes);
    SplitIn(w, s, k);
    if s < |w.schedules| { StaleTotalIff(w, s, total, seen); }
  }

  lemma SplitIn(w: World, s: nat, k: nat)
    requires Balanced(w)
    ensures s < |w.schedules| ==> ScheduleOk(w, s)
    ensures k < |w.slots| ==> SlotOk(w.slots[k])
  {
  }

  /** Changing a total keeps the split exactly when the used figure it read is still the stored one. */
  lemma StaleTotalIff(w: World, s: nat, total: real, seen: real)
    requires Balanced(w) && s < |w.schedules|
    ensures var schedule := UpdateTotalWrite(w, s, total, seen).schedules[s];
            schedule.used + schedule.available == schedule.total <==> seen == w.schedules[s].used
  {
    assert ScheduleOk(w, s);
  }

  /** A change of a draft's total that is written after the draft was published and booked. */
  function LateTotal(): seq<Write> {
    [NewSchedule(1, 8.0), SetPublished(0), Write.Book(0, 5.0, 2), SetTotal(0, 10.0, 0.0)]
  }

  lemma OneMore(rules: bool, w: World, c: Write, rest: seq<Write>)
    requires Balanced(w) && Fits(w, c)
    ensures Balanced(Commit(rules, w, c))
    ensures Interleave(rules, w, [c] + rest) == Interleave(rules, Commit(rules, w, c), rest)
  {
    CommitKeepsBalanced(rules, w, c);
    hide Commit, Balanced, Fits;
    assert ([c] + rest)[1..] == rest;
  }

  lemma FourWrites(w: World, a: Write, b: Write, c: Write, d: Write)
    requires Balanced(w) && Fits(w, a)
    requires Linked(Apply(w, a)) && Fits(Apply(w, a), b)
    requires Linked(Apply(Apply(w, a), b)) && Fits(Apply(Apply(w, a), b), c)
    requires Linked(Apply(Apply(Apply(w, a), b), c)) && Fits(Apply(Apply(Apply(w, a), b), c), d)
    ensures Interleave(false, w, [a, b, c, d]) == Apply(Apply(Apply(Apply(w, a), b), c), d)
  {
    assert [a, b, c, d] == [a] + [b, c, d] && [b, c, d] == [b] + [c, d] && [c, d] == [c] + [d] && [d] == [d] + [];
    hide Balanced, Interleave, Linked, Fits, Apply;
    OneMore(false, w, a, [b, c, d]);
    OneMore(false, Apply(w, a), b, [c, d]);
    OneMore(false, Apply(Apply(w, a), b), c, [d]);
    OneMore(false, Apply(Apply(Apply(w, a), b), c), d, []);
    Finished(Apply(Apply(Apply(Apply(w, a), b), c), d));
  }

  lemma LateTotalSplits()
    ensures var w := Interleave(false, Start(), LateTotal());
            |w.schedules| == 1 && w.schedules[0].total == 10.0 && w.schedules[0].used == 5.0 && w.schedules[0].available == 10.0
  {
    var c := LateTotal();
    hide Balanced, Traced, Interleave, Linked;
    var w0 := Start();
    StartsLinked(w0);
    var w1 := Apply(w0, c[0]);
    assert w1 == w0.(schedules := [Schedule(1, DRAFT, 8.0, 0.0, 8.0, 0.0)]);
    StartsLinked(w1);
    var w2 := Apply(w1, c[1]);
    assert w2 == w0.(schedules := [Schedule(1, PUBLISHED, 8.0, 0.0, 8.0, 0.0)]);
    StartsLinked(w2);
    var w3 := Apply(w2, c[2]);
    assert w3.schedules == [Schedule(1, PUBLISHED, 8.0, 5.0, 3.0, 0.0)];
    assert Linked(w3) by { BookLinks(w2, 0, 5.0, 2); }
    FourWrites(w0, c[0], c[1], c[2], c[3]);
  }

  lemma StartsLinked(w: World)
    requires w.bookings == []
    ensures Linked(w)
  {
  }

  lemma BookLinks(w: World, s: nat, q: real, farmer: nat)
    requires Linked(w) && s < |w.schedules|
    ensures Linked(BookWrite(w, s, q, farmer))
  {
  }

  lemma Finished(w: World)
    requires Balanced(w)
    ensures Interleave(false, w, []) == w
  {
  }

  // ---------- one call at a time ----------

  datatype Call =
    | CreateSchedule(provider: nat, total: real)
    | UpdateSchedule(s: nat, newTotal: Option<real>, provider: nat)
    | PublishSchedule(s: nat, provider: nat)
    | CancelSchedule(s: nat, provider: nat)
    | CreateSlot(s: nat, capacity: real)
    | Book(s: nat, quantity: real, farmer: nat)
    | CancelBooking(b: nat, farmer: nat)
    | ConfirmPickup(b: nat, batch: Option<string>, generated: string, arrived: bool, farmer: nat)
    | Stock(movement: I.Event)

  /** What the request validation lets through. */
  predicate Validated(c: Call) {
    && (c.CreateSchedule? ==> c.total >= 0.0)
    && (c.UpdateSchedule? && c.newTotal.Some? ==> c.newTotal.value >= 0.0)
    && (c.Book? ==> c.quantity >= 0.0)
    && (c.Stock? ==> I.Allowed(c.movement) && !c.movement.Pending?)
  }

  function CallAnswer(w: World, c: Call): (World, Outcome)
    requires Linked(w)
  {
    match c
    case CreateSchedule(provider, total) => (CreateScheduleStep(w, provider, total), Done)
    case UpdateSchedule(s, total, provider) => UpdateScheduleStep(w, s, total, provider)
    case PublishSchedule(s, provider) => PublishStep(w, s, provider)
    case CancelSchedule(s, provider) => CancelScheduleStep(w, s, provider)
    case CreateSlot(s, capacity) => CreateSlotStep(w, s, capacity)
    case Book(s, q, farmer) => BookStep(w, s, q, farmer)
    case CancelBooking(b, farmer) => CancelBookingStep(w, b, farmer)
    case ConfirmPickup(b, batch, generated, arrived, farmer) => ConfirmPickupStep(w, b, batch, generated, arrived, farmer)
    case Stock(m) => (w.(ledger := I.Step(w.ledger, m)), Done)
  }

  function CallStep(w: World, c: Call): World
    requires Linked(w)
  {
    CallAnswer(w, c).0
  }

  /** A call under the database's rules: its transaction is refused when a capacity check fails. */
  function Ruled(rules: bool, w: World, answer: (World, Outcome)): (World, Outcome) {
    if !rules || answer.1.Refused? then answer
    else if CapacitiesOk(answer.0) then (Recomputed(answer.0), Done)
    else (w, Refused(ConstraintViolated))
  }

  /** The write a call makes when its checks pass. */
  function WriteOf(w: World, c: Call): Write
    requires Linked(w)
  {
    match c
    case CreateSchedule(provider, total) => NewSchedule(provider, total)
    case UpdateSchedule(s, total, _) => SetTotal(s, total.GetOr(0.0), if s < |w.schedules| then w.schedules[s].used else 0.0)
    case PublishSchedule(s, _) => SetPublished(s)
    case CancelSchedule(s, _) => Write.CancelSchedule(s, BookingsOf(w.bookings, s))
    case CreateSlot(s, capacity) => NewSlot(s, capacity)
    case Book(s, q, farmer) => Write.Book(s, q, farmer)
    case CancelBooking(b, _) =>
      var status := if b < |w.bookings| then w.slots[w.bookings[b].slot].status else AVAILABLE;
      Write.CancelBooking(b, if status.FULL? then BOOKED else status)
    case ConfirmPickup(b, batch, generated, _, _) => Confirm(b, batch.GetOr(generated))
    case Stock(m) => Write.Stock(m)
  }

  /** A call changes nothing or makes its write. */
  lemma CallIsWrite(w: World, c: Call)
    requires Linked(w) && Validated(c)
    ensures CallStep(w, c) == w || (Fits(w, WriteOf(w, c)) && CallStep(w, c) == Apply(w, WriteOf(w, c)))
  {
    hide CancelScheduleWrite, CancelBookingWrite, BookWrite, ConfirmWrite, BookingsOf;
    if c.CancelSchedule? { BookingsOfAre(w.bookings, c.s); }
  }

  lemma CallKeepsBalanced(w: World, c: Call)
    requires Balanced(w) && Validated(c)
    ensures Balanced(CallStep(w, c))
  {
    CallIsWrite(w, c);
    hide Apply, CallStep, Validated, WriteOf, Fits;
    if CallStep(w, c) != w { ApplyKeepsBalanced(w, WriteOf(w, c)); }
  }

  /** A booking is cancelled when it was released. */
  predicate BookingOk(b: Booking) {
    ReleasesOk(b) && (b.status.BOOKING_CANCELLED? <==> b.releases > 0)
  }

  /** Nothing is booked on a draft, no schedule is overbooked, and no total was changed on a misread figure. */
  ghost predicate WithinTotal(w: World, s: nat)
    requires s < |w.schedules|
  {
    && w.schedules[s].used <= w.schedules[s].total
    && w.schedules[s].misread == 0.0
    && (w.schedules[s].status.DRAFT? ==>
          w.schedules[s].used == 0.0 && forall i :: 0 <= i < |w.bookings| ==> w.bookings[i].schedule != s)
  }

  ghost predicate Orderly(w: World) {
    && Balanced(w)
    && (forall i :: 0 <= i < |w.bookings| ==> BookingOk(w.bookings[i]))
    && (forall s: nat :: s < |w.schedules| ==> WithinTotal(w, s))
  }

  /** Each booking in the list is cancelled once more, no other changes. */
  lemma {:induction false} ReleaseAllAt(w: World, ids: seq<nat>, i: nat)
    requires Linked(w) && Increasing(ids) && i < |w.bookings|
    requires forall j :: 0 <= j < |ids| ==> ids[j] < |w.bookings|
    ensures ReleaseAll(w, ids).bookings[i] == if i in ids then Cancelled(w.bookings[i]) else w.bookings[i]
  {
    if ids != [] {
      IncreasingFront(ids);
      hide Linked, Increasing;
      ReleaseAllAt(w, ids[..|ids| - 1], i);
      assert ids == ids[..|ids| - 1] + [ids[|ids| - 1]];
    }
  }

  lemma IncreasingFront(ids: seq<nat>)
    requires ids != [] && Increasing(ids)
    ensures Increasing(ids[..|ids| - 1]) && ids[|ids| - 1] !in ids[..|ids| - 1]
  {
  }

  /** What a call does to one booking that was there before. */
  lemma BookingAfter(w: World, c: Call, i: nat)
    requires Linked(w) && i < |w.bookings|
    ensures i < |CallStep(w, c).bookings|
    ensures var b, b' := w.bookings[i], CallStep(w, c).bookings[i];
            || b' == b
            || (b' == Cancelled(b) && (c.CancelSchedule? || c.CancelBooking?))
            || (c.ConfirmPickup? && !b.status.BOOKING_CANCELLED?
                && b' == b.(status := PICKED_UP, pickupConfirmed := true, batch := b'.batch, receipt := b'.receipt))
  {
    hide ReceiptTaken, BookingsOf, ReleaseAll, Booked;
    if c.CancelSchedule? {
      BookingsOfAre(w.bookings, c.s);
      ReleaseAllAt(w, BookingsOf(w.bookings, c.s), i);
    }
  }

  lemma CallKeepsBookings(w: World, c: Call, i: nat)
    requires Orderly(w) && Validated(c) && i < |CallStep(w, c).bookings|
    ensures BookingOk(CallStep(w, c).bookings[i])
  {
    if i < |w.bookings| {
      assert BookingOk(w.bookings[i]);
      BookingAfter(w, c, i);
    } else {
      NewBookings(w, c);
    }
  }

  /** Only a booking call adds a booking. */
  lemma NewBookings(w: World, c: Call)
    requires Linked(w)
    ensures var w' := CallStep(w, c);
            || |w'.bookings| == |w.bookings|
            || (c.Book? && w' == BookWrite(w, c.s, c.quantity, c.farmer) && c.s < |w.schedules|
                && !w.schedules[c.s].status.DRAFT? && w.schedules[c.s].used + c.quantity <= w.schedules[c.s].total)
  {
    hide ReceiptTaken, BookingsOf, ReleaseAll, Booked;
  }

  lemma {:induction false} BookedIsNotNegative(bookings: seq<Booking>, ids: seq<nat>)
    requires forall i :: 0 <= i < |ids| ==> ids[i] < |bookings| && bookings[ids[i]].quantity >= 0.0
    ensures Booked(bookings, ids) >= 0.0
  {
    if ids != [] { BookedIsNotNegative(bookings, ids[..|ids| - 1]); }
  }

  /** No schedule's bookings change hands, and only a booking call adds any. */
  lemma BookingsStayPut(w: World, c: Call, s: nat)
    requires Linked(w) && forall i :: 0 <= i < |w.bookings| ==> w.bookings[i].schedule != s
    requires c.Book? ==> c.s != s
    ensures forall i :: 0 <= i < |CallStep(w, c).bookings| ==> CallStep(w, c).bookings[i].schedule != s
  {
    NewBookings(w, c);
    forall i | 0 <= i < |CallStep(w, c).bookings| ensures CallStep(w, c).bookings[i].schedule != s {
      if i < |w.bookings| { BookingAfter(w, c, i); }
    }
  }

  /** What a call does to one schedule that was there before. */
  lemma ScheduleAfter(w: World, c: Call, s: nat)
    requires Orderly(w) && Validated(c) && s < |w.schedules|
    ensures s < |CallStep(w, c).schedules|
    ensures var a, b := w.schedules[s], CallStep(w, c).schedules[s];
            || b == a
            || (c.UpdateSchedule? && a.status.DRAFT? && b.status.DRAFT? && b.used == a.used && b.total >= 0.0 && b.misread == 0.0)
            || (b.total == a.total && b.misread == a.misread && b.used <= a.used && !b.status.DRAFT?)
            || (c.Book? && b.total == a.total && b.misread == a.misread && b.status == a.status && !a.status.DRAFT?
                && b.used <= b.total)
  {
    hide ReceiptTaken, BookingsOf, ReleaseAll, Booked, SlotsOk, ScheduleOk, SlotOk;
    match c
    case CancelSchedule(s', _) =>
      BookingsOfAre(w.bookings, s');
      var ids := BookingsOf(w.bookings, s');
      assert forall i :: 0 <= i < |ids| ==> BookingOk(w.bookings[ids[i]]);
      BookedIsNotNegative(w.bookings, ids);
    case CancelBooking(b, _) =>
      if b < |w.bookings| {
        assert BookingOk(w.bookings[b]);
        assert WithinTotal(w, w.bookings[b].schedule);
      }
    case _ =>
  }

  lemma CallKeepsWithin(w: World, c: Call, s: nat)
    requires Orderly(w) && Validated(c) && s < |CallStep(w, c).schedules|
    ensures WithinTotal(CallStep(w, c), s)
  {
    if s < |w.schedules| {
      assert WithinTotal(w, s);
      ScheduleAfter(w, c, s);
      if CallStep(w, c).schedules[s].status.DRAFT? {
        BookStaysOffDrafts(w, c, s);
      }
    } else {
      assert c.CreateSchedule?;
    }
  }

  lemma BookStaysOffDrafts(w: World, c: Call, s: nat)
    requires Orderly(w) && s < |w.schedules| && w.schedules[s].status.DRAFT?
    ensures forall i :: 0 <= i < |CallStep(w, c).bookings| ==> CallStep(w, c).bookings[i].schedule != s
  {
    assert WithinTotal(w, s);
    if c.Book? && c.s == s {
    } else {
      hide CallStep;
      BookingsStayPut(w, c, s);
    }
  }

  lemma CallKeepsOrderly(w: World, c: Call)
    requires Orderly(w) && Validated(c)
    ensures Orderly(CallStep(w, c))
  {
    CallKeepsBalanced(w, c);
    hide CallStep, Validated, BookingOk, WithinTotal, Balanced;
    forall i | 0 <= i < |CallStep(w, c).bookings| ensures BookingOk(CallStep(w, c).bookings[i]) { CallKeepsBookings(w, c, i); }
    forall s: nat | s < |CallStep(w, c).schedules| ensures WithinTotal(CallStep(w, c), s) { CallKeepsWithin(w, c, s); }
  }

  /** With no misread total, there is nothing for the triggers to change. */
  lemma NothingToRecompute(w: World)
    requires Balanced(w) && forall s: nat :: s < |w.schedules| ==> w.schedules[s].misread == 0.0
    ensures Recomputed(w) == w
  {
    hide Total, OwnSlots, Linked;
    assert forall s: nat :: s < |w.schedules| ==> ScheduleOk(w, s);
    forall s: nat | s < |w.schedules| ensures Recomputed(w).schedules[s] == w.schedules[s] { assert ScheduleOk(w, s); }
    forall k: nat | k < |w.slots| ensures Recomputed(w).slots[k] == w.slots[k] { assert SlotOk(w.slots[k]); }
    assert Recomputed(w).schedules == w.schedules && Recomputed(w).slots == w.slots;
  }

  lemma OrderlyIsRecomputed(w: World)
    requires Orderly(w)
    ensures Recomputed(w) == w
  {
    hide Balanced, BookingOk, Recomputed;
    forall s: nat | s < |w.schedules| ensures w.schedules[s].misread == 0.0 { assert WithinTotal(w, s); }
    NothingToRecompute(w);
  }

  /** Under the rules a call does what it does without them, or nothing. */
  lemma RuledStep(rules: bool, w: World, c: Call)
    requires Orderly(w) && Validated(c)
    ensures Orderly(Ruled(rules, w, CallAnswer(w, c)).0)
    ensures Ruled(rules, w, CallAnswer(w, c)).0 == (if rules && CallAnswer(w, c).1.Done? && !CapacitiesOk(CallStep(w, c)) then w
                                                    else CallStep(w, c))
  {
    CallKeepsOrderly(w, c);
    OrderlyIsRecomputed(CallStep(w, c));
    hide Orderly, CallAnswer, Validated, CapacitiesOk, Recomputed;
  }

  ghost predicate AllValidated(calls: seq<Call>) {
    forall c :: c in calls ==> Validated(c)
  }

  /** The calls one after the other, with or without the rules. */
  function Run(rules: bool, w: World, calls: seq<Call>): (r: World)
    requires Orderly(w) && AllValidated(calls)
    ensures Orderly(r)
    decreases |calls|
  {
    if calls == [] then w
    else
      RuledStep(rules, w, calls[0]);
      Run(rules, Ruled(rules, w, CallAnswer(w, calls[0])).0, calls[1..])
  }

  /** What the services alone keep, one call at a time: no schedule is booked beyond its total, whatever totals its drafts
      were given, since a draft has no bookings and nothing used; and what is used is the live bookings'
      quantity exactly when no booking of a positive quantity was released twice. */
  lemma UsedWithinTotal(calls: seq<Call>, s: nat)
    requires AllValidated(calls)
    ensures s < |Run(false, Start(), calls).schedules| ==>
              var w := Run(false, Start(), calls);
              && w.schedules[s].used <= w.schedules[s].total
              && w.schedules[s].used + w.schedules[s].available == w.schedules[s].total
              && (w.schedules[s].status.DRAFT? ==> w.schedules[s].used == 0.0)
              && (w.schedules[s].used == Total(w.bookings, s, Live)
                  <==> forall i :: 0 <= i < |w.bookings| && w.bookings[i].schedule == s ==>
                         w.bookings[i].quantity == 0.0 || w.bookings[i].releases <= 1)
  {
    var w := Run(false, Start(), calls);
    hide Run, Total, AllValidated;
    if s < |w.schedules| {
      assert WithinTotal(w, s) && ScheduleOk(w, s);
      hide Balanced;
      UsedIsLiveIff(w, s);
    }
  }

  lemma UsedIsLiveIff(w: World, s: nat)
    requires Orderly(w) && s < |w.schedules|
    ensures w.schedules[s].used == Total(w.bookings, s, Live)
            <==> forall i :: 0 <= i < |w.bookings| && w.bookings[i].schedule == s ==>
                   w.bookings[i].quantity == 0.0 || w.bookings[i].releases <= 1
  {
    hide Total, WithinTotal, Linked, SlotsOk;
    assert ScheduleOk(w, s);
    hide Balanced;
    assert forall i :: 0 <= i < |w.bookings| ==> BookingOk(w.bookings[i]);
    HeldIsLiveLessExcess(w.bookings, s);
    assert forall i :: 0 <= i < |w.bookings| ==> Share(w.bookings[i], s, Excess) >= 0.0;
    ZeroTotalIff(w.bookings, s, Excess);
    assert forall i :: 0 <= i < |w.bookings| && w.bookings[i].schedule == s ==>
      (Share(w.bookings[i], s, Excess) == 0.0 <==> w.bookings[i].quantity == 0.0 || w.bookings[i].releases <= 1);
  }

  /** Cancelling a booking moves used and live quantity apart by nothing the first time, and by the booking's
      quantity every further time. */
  lemma CancelBookingDrift(w: World, b: nat, farmer: nat)
    requires Orderly(w) && CancelBookingStep(w, b, farmer).1.Done?
    ensures var w' := CancelBookingStep(w, b, farmer).0;
            var s, booking := w.bookings[b].schedule, w.bookings[b];
            && w'.schedules[s].used - Total(w'.bookings, s, Live)
               == w.schedules[s].used - Total(w.bookings, s, Live)
                  - (if booking.status.BOOKING_CANCELLED? then booking.quantity else 0.0)
            && forall other: nat :: other < |w.schedules| && other != s ==> w'.schedules[other] == w.schedules[other]
  {
    assert Linked(w);
    hide Orderly, Total, Linked;
    TotalAfterUpdate(w.bookings, b, Cancelled(w.bookings[b]), w.bookings[b].schedule, Live);
  }

  lemma OneCall(w: World, c: Call, rest: seq<Call>)
    requires Orderly(w) && Validated(c) && AllValidated(rest)
    ensures AllValidated([c] + rest) && Orderly(CallStep(w, c))
    ensures Run(false, w, [c] + rest) == Run(false, CallStep(w, c), rest)
  {
    RuledStep(false, w, c);
    hide Orderly, CallAnswer, Validated;
    assert ([c] + rest)[1..] == rest;
  }

  lemma FiveCalls(w: World, a: Call, b: Call, c: Call, d: Call, e: Call)
    requires Orderly(w) && Validated(a) && Validated(b) && Validated(c) && Validated(d) && Validated(e)
    ensures Orderly(CallStep(w, a)) && Orderly(CallStep(CallStep(w, a), b)) && Orderly(CallStep(CallStep(CallStep(w, a), b), c))
    ensures Orderly(CallStep(CallStep(CallStep(CallStep(w, a), b), c), d))
    ensures AllValidated([a, b, c, d, e])
    ensures Run(false, w, [a, b, c, d, e]) == CallStep(CallStep(CallStep(CallStep(CallStep(w, a), b), c), d), e)
  {
    assert [a, b, c, d, e] == [a] + [b, c, d, e] && [b, c, d, e] == [b] + [c, d, e] && [c, d, e] == [c] + [d, e]
           && [d, e] == [d] + [e] && [e] == [e] + [];
    hide Orderly, Validated, CallStep;
    OneCall(w, a, [b, c, d, e]);
    OneCall(CallStep(w, a), b, [c, d, e]);
    OneCall(CallStep(CallStep(w, a), b), c, [d, e]);
    OneCall(CallStep(CallStep(CallStep(w, a), b), c), d, [e]);
    OneCall(CallStep(CallStep(CallStep(CallStep(w, a), b), c), d), e, []);
  }

  lemma ReleasedTwice(w: World, b: nat, farmer: nat)
    requires Linked(w) && b < |w.bookings| && w.bookings[b].farmer == farmer && !w.bookings[b].status.PICKED_UP?
    ensures var w1 := CancelBookingStep(w, b, farmer).0;
            && Linked(w1)
            && var w2 := CancelBookingStep(w1, b, farmer).0;
               var schedule := w.schedules[w.bookings[b].schedule];
               w2.schedules == w.schedules[w.bookings[b].schedule := Uses(Uses(schedule, -w.bookings[b].quantity), -w.bookings[b].quantity)]
  {
    var s, q := w.bookings[b].schedule, w.bookings[b].quantity;
    assert w.schedules[s := Uses(w.schedules[s], -q)][s := Uses(Uses(w.schedules[s], -q), -q)]
           == w.schedules[s := Uses(Uses(w.schedules[s], -q), -q)];
  }

  lemma OneBooking(w: World, create: Call, publish: Call, book: Call)
    requires w.schedules == [] && w.slots == [] && w.bookings == []
    requires create == CreateSchedule(1, 8.0) && publish == PublishSchedule(0, 1) && book == Call.Book(0, 5.0, 2)
    ensures Linked(w) && Linked(CallStep(w, create)) && Linked(CallStep(CallStep(w, create), publish))
    ensures var w3 := CallStep(CallStep(CallStep(w, create), publish), book);
            && w3.schedules == [Schedule(1, PUBLISHED, 8.0, 5.0, 3.0, 0.0)]
            && w3.bookings == [Booking(0, 0, 2, 5.0, BOOKING_CONFIRMED, false, None, None, 0, 0.0)]
  {
  }

  /** From empty tables, a booking of 5 kg, cancelled twice, leaves the schedule with minus 5 kg used when there are no rules. */
  lemma CancelledTwiceDrifts(w: World, create: Call, publish: Call, book: Call, cancel: Call)
    requires Orderly(w) && w.schedules == [] && w.slots == [] && w.bookings == []
    requires create == CreateSchedule(1, 8.0) && publish == PublishSchedule(0, 1) && book == Call.Book(0, 5.0, 2)
    requires cancel == Call.CancelBooking(0, 2)
    ensures AllValidated([create, publish, book, cancel, cancel])
    ensures var w' := Run(false, w, [create, publish, book, cancel, cancel]);
            |w'.schedules| == 1 && w'.schedules[0].used == -5.0 && w'.schedules[0].available == 13.0
  {
    hide Run, Orderly, Linked, AllValidated, CancelBookingStep, CallStep;
    OneBooking(w, create, publish, book);
    FiveCalls(w, create, publish, book, cancel, cancel);
    var w3 := CallStep(CallStep(CallStep(w, create), publish), book);
    LinkedIfOrderly(w3);
    ReleasedTwice(w3, 0, 2);
    CancelCall(w3, 0, 2);
    CancelCall(CallStep(w3, cancel), 0, 2);
  }

  lemma CancelCall(w: World, b: nat, farmer: nat)
    requires Linked(w)
    ensures CallStep(w, Call.CancelBooking(b, farmer)) == CancelBookingStep(w, b, farmer).0
  {
  }

  lemma LinkedIfOrderly(w: World)
    requires Orderly(w)
    ensures Linked(w)
  {
  }

  lemma {:induction false} BookedOfPrefix(bookings: seq<Booking>, rest: seq<Booking>, ids: seq<nat>)
    requires rest <= bookings && forall i :: 0 <= i < |ids| ==> ids[i] < |rest|
    ensures Booked(bookings, ids) == Booked(rest, ids)
  {
    if ids != [] { BookedOfPrefix(bookings, rest, ids[..|ids| - 1]); }
  }

  /** The loop gives back the quantity of every booking of the schedule. */
  lemma {:induction false} BookedAll(bookings: seq<Booking>, s: nat)
    requires forall i :: 0 <= i < |BookingsOf(bookings, s)| ==> BookingsOf(bookings, s)[i] < |bookings|
    ensures Booked(bookings, BookingsOf(bookings, s)) == Total(bookings, s, Held) + Total(bookings, s, Returned)
  {
    if bookings != [] {
      var n := |bookings| - 1;
      var rest := bookings[..n];
      var ids := BookingsOf(rest, s);
      BookingsOfAre(rest, s);
      BookedAll(rest, s);
      BookedOfPrefix(bookings, rest, ids);
      assert BookingsOf(bookings, s) == if bookings[n].schedule == s then ids + [n] else ids;
      assert bookings[n].schedule == s ==> (ids + [n])[..|ids|] == ids;
    }
  }

  /** Cancelling a schedule cancels all its bookings. Its used capacity falls to minus what had been given back
      for them before: to zero exactly when none of a positive quantity was cancelled already. */
  lemma CancelScheduleEmptiesIff(w: World, s: nat, provider: nat)
    requires Orderly(w) && CancelScheduleStep(w, s, provider).1.Done?
    ensures var w' := CancelScheduleStep(w, s, provider).0;
            && (forall i :: 0 <= i < |w'.bookings| && w'.bookings[i].schedule == s ==> w'.bookings[i].status.BOOKING_CANCELLED?)
            && Total(w'.bookings, s, Live) == 0.0
            && w'.schedules[s].used == -Total(w.bookings, s, Returned)
            && (w'.schedules[s].used == 0.0 <==>
                  forall i :: 0 <= i < |w.bookings| && w.bookings[i].schedule == s ==>
                    w.bookings[i].quantity == 0.0 || !w.bookings[i].status.BOOKING_CANCELLED?)
  {
    var w' := CancelScheduleStep(w, s, provider).0;
    AllCancelled(w, s, provider);
    assert ScheduleOk(w, s);
    BookingsOfAre(w.bookings, s);
    BookedAll(w.bookings, s);
    assert w'.schedules[s].used == w.schedules[s].used - Booked(w.bookings, BookingsOf(w.bookings, s));
    hide Total, CancelScheduleStep, Balanced, WithinTotal;
    assert forall i :: 0 <= i < |w.bookings| ==> BookingOk(w.bookings[i]);
    ZeroTotalIff(w.bookings, s, Returned);
    ZeroTotalIff(w'.bookings, s, Live);
    assert forall i :: 0 <= i < |w.bookings| && w.bookings[i].schedule == s ==>
      (Share(w.bookings[i], s, Returned) == 0.0 <==> w.bookings[i].quantity == 0.0 || !w.bookings[i].status.BOOKING_CANCELLED?);
  }

  lemma AllCancelled(w: World, s: nat, provider: nat)
    requires Orderly(w) && CancelScheduleStep(w, s, provider).1.Done?
    ensures var w' := CancelScheduleStep(w, s, provider).0;
            && |w'.bookings| == |w.bookings|
            && (forall i :: 0 <= i < |w'.bookings| && w'.bookings[i].schedule == s ==> w'.bookings[i].status.BOOKING_CANCELLED?)
            && (forall i :: 0 <= i < |w'.bookings| ==> Share(w'.bookings[i], s, Live) == 0.0)
  {
    var w' := CancelScheduleStep(w, s, provider).0;
    BookingsOfAre(w.bookings, s);
    hide Orderly, Booked;
    forall i | 0 <= i < |w'.bookings|
      ensures w'.bookings[i].schedule == s ==> w'.bookings[i].status.BOOKING_CANCELLED?
    {
      ReleaseAllAt(w, BookingsOf(w.bookings, s), i);
      InBookingsOf(w.bookings, s, i);
    }
  }

  // ---------- what the rules add ----------

  /** A booking of a slot that may not go below zero is released at most once. */
  lemma ReleasedOnce(w: World, i: nat)
    requires Linked(w) && OwnSlots(w) && CapacitiesOk(w) && i < |w.bookings|
    ensures w.bookings[i].quantity > 0.0 && w.bookings[i].releases <= 1
    ensures Weight(w.bookings[i], Held) == Weight(w.bookings[i], Unreleased) >= 0.0
  {
    var slot := w.slots[w.bookings[i].slot];
    assert slot.capacity > 0.0 && 0.0 <= slot.used;
  }

  lemma {:induction false} SameTotals(bookings: seq<Booking>, s: nat, m: Measure, m': Measure)
    requires forall i :: 0 <= i < |bookings| ==> Weight(bookings[i], m) == Weight(bookings[i], m')
    ensures Total(bookings, s, m) == Total(bookings, s, m')
  {
    if bookings != [] {
      hide Weight;
      var rest := bookings[..|bookings| - 1];
      assert forall i :: 0 <= i < |rest| ==> rest[i] == bookings[i];
      SameTotals(rest, s, m, m');
    }
  }

  ghost predicate RulesKept(w: World) {
    CapacitiesOk(w) && forall s :: 0 <= s < |w.schedules| ==> w.schedules[s].misread == 0.0
  }

  lemma CommitKeepsRules(w: World, c: Write)
    requires Linked(w) && Fits(w, c) && RulesKept(w)
    ensures RulesKept(Commit(true, w, c))
  {
    hide Apply, Fits;
  }

  lemma {:induction false} InterleaveKeepsRules(w: World, writes: seq<Write>)
    requires Balanced(w) && RulesKept(w)
    ensures RulesKept(Interleave(true, w, writes))
    decreases |writes|
  {
    if writes != [] {
      hide Commit, Fits, RulesKept, OwnSlots;
      if Fits(w, writes[0]) {
        CommitKeepsBalanced(true, w, writes[0]);
        CommitKeepsRules(w, writes[0]);
        InterleaveKeepsRules(Commit(true, w, writes[0]), writes[1..]);
      } else {
        InterleaveKeepsRules(w, writes[1..]);
      }
    }
  }

  /** With the rules, however the writes interleave: capacities are split and never exceeded, a booking is released at
      most once, and a schedule's used capacity is the quantity of its bookings that were not released. */
  lemma CapacityHolds(writes: seq<Write>, s: nat, k: nat, i: nat)
    ensures var w := Interleave(true, Start(), writes);
            && (s < |w.schedules| ==>
                  && w.schedules[s].used + w.schedules[s].available == w.schedules[s].total
                  && 0.0 <= w.schedules[s].used <= w.schedules[s].total
                  && w.schedules[s].used == Total(w.bookings, s, Unreleased))
            && (k < |w.slots| ==> w.slots[k].used + w.slots[k].available == w.slots[k].capacity && 0.0 <= w.slots[k].used <= w.slots[k].capacity)
            && (i < |w.bookings| ==> w.bookings[i].releases <= 1 && w.bookings[i].quantity > 0.0)
  {
    hide Balanced, Traced, Interleave, Start, RulesKept;
    InterleaveKeepsRules(Start(), writes);
    KeptRules(Interleave(true, Start(), writes), s, k, i);
  }

  lemma KeptRules(w: World, s: nat, k: nat, i: nat)
    requires Balanced(w) && RulesKept(w)
    ensures s < |w.schedules| ==>
              && w.schedules[s].used + w.schedules[s].available == w.schedules[s].total
              && 0.0 <= w.schedules[s].used <= w.schedules[s].total
              && w.schedules[s].used == Total(w.bookings, s, Unreleased)
    ensures k < |w.slots| ==> w.slots[k].used + w.slots[k].available == w.slots[k].capacity && 0.0 <= w.slots[k].used <= w.slots[k].capacity
    ensures i < |w.bookings| ==> w.bookings[i].releases <= 1 && w.bookings[i].quantity > 0.0
  {
    forall j: nat | j < |w.bookings|
      ensures Weight(w.bookings[j], Held) == Weight(w.bookings[j], Unreleased) && w.bookings[j].releases <= 1 && w.bookings[j].quantity > 0.0
    {
      ReleasedOnce(w, j);
    }
    SameTotals(w.bookings, s, Held, Unreleased);
    hide OwnSlots, Total, Linked, Weight;
    assert s < |w.schedules| ==> ScheduleOk(w, s);
    assert k < |w.slots| ==> SlotOk(w.slots[k]);
  }

  lemma {:induction false} RunKeepsCapacities(w: World, calls: seq<Call>)
    requires Orderly(w) && AllValidated(calls) && CapacitiesOk(w)
    ensures CapacitiesOk(Run(true, w, calls))
    decreases |calls|
  {
    if calls != [] {
      RuledStep(true, w, calls[0]);
      RefusedKeeps(w, calls[0]);
      hide Orderly, CallAnswer, Validated, CapacitiesOk, Recomputed;
      RunKeepsCapacities(Ruled(true, w, CallAnswer(w, calls[0])).0, calls[1..]);
    }
  }

  /** With the rules and one call at a time, what is used is always the live bookings' quantity. */
  lemma UsedIsLive(calls: seq<Call>, s: nat)
    requires AllValidated(calls)
    ensures s < |Run(true, Start(), calls).schedules| ==>
              var w := Run(true, Start(), calls);
              w.schedules[s].used == Total(w.bookings, s, Live) && 0.0 <= w.schedules[s].used <= w.schedules[s].total
  {
    hide Run, Total, AllValidated, Balanced, Traced;
    RunKeepsCapacities(Start(), calls);
    var w := Run(true, Start(), calls);
    if s < |w.schedules| { LiveUnderRules(w, s); }
  }

  lemma LiveUnderRules(w: World, s: nat)
    requires Orderly(w) && CapacitiesOk(w) && s < |w.schedules|
    ensures w.schedules[s].used == Total(w.bookings, s, Live) && 0.0 <= w.schedules[s].used <= w.schedules[s].total
  {
    hide Total, OwnSlots, WithinTotal, BookingOk;
    forall i: nat | i < |w.bookings| ensures w.bookings[i].releases <= 1 { ReleasedOnce(w, i); }
    UsedIsLiveIff(w, s);
  }

  /** With the rules, a booking is cancelled at most once: the second attempt passes the service's checks, and is
      refused because its slot would go below zero. */
  lemma CancelOnceIff(w: World, b: nat, farmer: nat)
    requires Orderly(w) && CapacitiesOk(w)
    ensures Ruled(true, w, CancelBookingStep(w, b, farmer)).1.Done?
            <==> CancelBookingStep(w, b, farmer).1.Done? && !w.bookings[b].status.BOOKING_CANCELLED?
  {
    if CancelBookingStep(w, b, farmer).1.Done? {
      ReleasedOnce(w, b);
      assert BookingOk(w.bookings[b]);
      var w' := CancelBookingStep(w, b, farmer).0;
      assert w'.slots[w.bookings[b].slot].used == w.slots[w.bookings[b].slot].used - w.bookings[b].quantity;
      if !w.bookings[b].status.BOOKING_CANCELLED? {
        HeldAtLeast(w, b);
        assert ScheduleOk(w, w.bookings[b].schedule);
      }
    }
    hide Balanced, WithinTotal, Total;
  }

  lemma HeldAtLeast(w: World, b: nat)
    requires Linked(w) && OwnSlots(w) && CapacitiesOk(w) && b < |w.bookings|
    ensures Total(w.bookings, w.bookings[b].schedule, Held) >= Weight(w.bookings[b], Held)
  {
    forall i: nat | i < |w.bookings| ensures Weight(w.bookings[i], Held) >= 0.0 { ReleasedOnce(w, i); }
    hide OwnSlots, CapacitiesOk, Linked, Weight;
    ShareAtMost(w.bookings, b, w.bookings[b].schedule, Held);
  }

  lemma {:induction false} ShareAtMost(bookings: seq<Booking>, b: nat, s: nat, m: Measure)
    requires b < |bookings| && forall i :: 0 <= i < |bookings| ==> Share(bookings[i], s, m) >= 0.0
    ensures Total(bookings, s, m) >= Share(bookings[b], s, m)
  {
    hide Share;
    var n := |bookings| - 1;
    var rest := bookings[..n];
    assert forall i :: 0 <= i < n ==> rest[i] == bookings[i];
    if b < n { ShareAtMost(rest, b, s, m); } else { ZeroTotalIff(rest, s, m); }
  }

  /** With the rules, a schedule can be cancelled exactly when the service allows it and none of its bookings was
      cancelled before; its used capacity is then zero. */
  lemma CancelScheduleOnceIff(w: World, s: nat, provider: nat)
    requires Orderly(w) && CapacitiesOk(w)
    ensures var (w', r) := Ruled(true, w, CancelScheduleStep(w, s, provider));
            && (r.Done? <==> CancelScheduleStep(w, s, provider).1.Done?
                             && forall i :: 0 <= i < |w.bookings| && w.bookings[i].schedule == s ==> !w.bookings[i].status.BOOKING_CANCELLED?)
            && (r.Done? ==> w'.schedules[s].used == 0.0 && Total(w'.bookings, s, Live) == 0.0)
  {
    if CancelScheduleStep(w, s, provider).1.Done? {
      CancelScheduleEmptiesIff(w, s, provider);
      ReturnedIsNotNegative(w, s);
      hide Total, Orderly, CancelScheduleStep;
      if forall i :: 0 <= i < |w.bookings| && w.bookings[i].schedule == s ==> !w.bookings[i].status.BOOKING_CANCELLED? {
        CancelledCapacities(w, s, provider);
      }
    }
  }

  lemma ReturnedIsNotNegative(w: World, s: nat)
    requires Orderly(w) && CapacitiesOk(w)
    ensures forall i :: 0 <= i < |w.bookings| ==> w.bookings[i].quantity > 0.0
    ensures Total(w.bookings, s, Returned) >= 0.0
  {
    forall i: nat | i < |w.bookings| ensures w.bookings[i].quantity > 0.0 && Share(w.bookings[i], s, Returned) >= 0.0 {
      ReleasedOnce(w, i);
      assert BookingOk(w.bookings[i]);
    }
    ZeroTotalIff(w.bookings, s, Returned);
  }

  /** When none was cancelled before, the loop takes every slot of the schedule's bookings to zero. */
  lemma CancelledCapacities(w: World, s: nat, provider: nat)
    requires Orderly(w) && CapacitiesOk(w) && CancelScheduleStep(w, s, provider).1.Done?
    requires forall i :: 0 <= i < |w.bookings| && w.bookings[i].schedule == s ==> !w.bookings[i].status.BOOKING_CANCELLED?
    requires CancelScheduleStep(w, s, provider).0.schedules[s].used == 0.0
    ensures CapacitiesOk(CancelScheduleStep(w, s, provider).0)
  {
    var w' := CancelScheduleStep(w, s, provider).0;
    BookingsOfAre(w.bookings, s);
    var ids := BookingsOf(w.bookings, s);
    forall k: nat | k < |w'.slots| ensures w'.slots[k].capacity > 0.0 && 0.0 <= w'.slots[k].used <= w'.slots[k].capacity {
      ReleasedSlot(w, ids, k);
    }
    hide Balanced, BookingOk;
  }

  /** A slot after the loop over increasing ids. */
  lemma {:induction false} ReleasedSlot(w: World, ids: seq<nat>, k: nat)
    requires Linked(w) && OwnSlots(w) && Increasing(ids) && k < |w.slots|
    requires forall i :: 0 <= i < |ids| ==> ids[i] < |w.bookings| && w.bookings[ids[i]].releases == 0
    ensures var slot, slot' := w.slots[k], ReleaseAll(w, ids).slots[k];
            slot'.capacity == slot.capacity && (slot'.used == slot.used || slot'.used == 0.0)
  {
    if ids != [] {
      var rest, b := ids[..|ids| - 1], ids[|ids| - 1];
      ReleasedSlot(w, rest, k);
      ReleaseAllAt(w, rest, b);
      ReleaseAllKeepsOwn(w, rest);
      assert ReleasesOk(w.bookings[b]);
      hide ReleasesOk;
    }
  }

  // ---------- from pickup to inventory ----------

  /** A booking's confirmation, its receipt and its batch go together. */
  predicate BookingTraced(w: World, b: nat)
    requires b < |w.bookings|
  {
    var booking := w.bookings[b];
    && booking.quantity >= 0.0
    && (booking.pickupConfirmed <==> booking.receipt.Some?)
    && (booking.receipt.Some? ==> booking.receipt.value < |w.receipts|
                                  && w.receipts[booking.receipt.value].booking == b
                                  && booking.batch == Some(w.receipts[booking.receipt.value].batch))
  }

  /** A receipt carries its booking's quantity, and so does the stock transaction made with it. */
  predicate ReceiptTraced(w: World, r: nat)
    requires r < |w.receipts|
  {
    var receipt := w.receipts[r];
    && receipt.booking < |w.bookings|
    && w.bookings[receipt.booking].receipt == Some(r)
    && receipt.quantity == w.bookings[receipt.booking].quantity
    && receipt.tx < |w.ledger.txs|
    && var tx := w.ledger.txs[receipt.tx];
       tx.kind.STOCK_IN? && tx.booking == Some(receipt.booking) && tx.batch == Some(receipt.batch) && tx.quantity == receipt.quantity
  }

  /** A stock transaction made for a booking is the one its receipt names. */
  predicate TxTraced(w: World, t: nat)
    requires t < |w.ledger.txs|
  {
    w.ledger.txs[t].booking.Some? ==>
      var b := w.ledger.txs[t].booking.value;
      b < |w.bookings| && w.bookings[b].receipt.Some? && w.bookings[b].receipt.value < |w.receipts|
      && w.receipts[w.bookings[b].receipt.value].tx == t
  }

  ghost predicate Traced(w: World) {
    && I.Valid(w.ledger)
    && (forall b: nat :: b < |w.bookings| ==> BookingTraced(w, b))
    && (forall r: nat :: r < |w.receipts| ==> ReceiptTraced(w, r))
    && (forall t: nat :: t < |w.ledger.txs| ==> TxTraced(w, t))
    && (forall r, r' :: 0 <= r < r' < |w.receipts| ==> w.receipts[r].batch != w.receipts[r'].batch)
  }

  predicate SameTrace(a: Booking, b: Booking) {
    a.quantity == b.quantity && a.pickupConfirmed == b.pickupConfirmed && a.batch == b.batch && a.receipt == b.receipt
  }

  /** Nothing that matters to the trace has changed: old bookings keep their confirmation, old transactions all but
      their status, and the new ones have nothing to do with each other. */
  ghost predicate TraceKept(w: World, w': World) {
    && w'.receipts == w.receipts
    && |w.bookings| <= |w'.bookings| && |w.ledger.txs| <= |w'.ledger.txs|
    && (forall b: nat :: b < |w.bookings| ==> SameTrace(w.bookings[b], w'.bookings[b]))
    && (forall b: nat :: |w.bookings| <= b < |w'.bookings| ==>
          w'.bookings[b].quantity >= 0.0 && !w'.bookings[b].pickupConfirmed && w'.bookings[b].receipt.None?)
    && (forall t: nat :: t < |w.ledger.txs| ==> w'.ledger.txs[t] == w.ledger.txs[t].(status := w'.ledger.txs[t].status))
    && (forall t: nat :: |w.ledger.txs| <= t < |w'.ledger.txs| ==> w'.ledger.txs[t].booking.None?)
  }

  lemma KeptTraceIsTraced(w: World, w': World)
    requires Traced(w) && TraceKept(w, w') && I.Valid(w'.ledger)
    ensures Traced(w')
  {
    hide I.Valid;
    forall b: nat | b < |w'.bookings| ensures BookingTraced(w', b) {
      if b < |w.bookings| { assert BookingTraced(w, b) && SameTrace(w.bookings[b], w'.bookings[b]); }
    }
    forall r: nat | r < |w'.receipts| ensures ReceiptTraced(w', r) {
      assert ReceiptTraced(w, r) && SameTrace(w.bookings[w.receipts[r].booking], w'.bookings[w.receipts[r].booking]);
    }
    forall t: nat | t < |w'.ledger.txs| ensures TxTraced(w', t) {
      if t < |w.ledger.txs| && w.ledger.txs[t].booking.Some? {
        assert TxTraced(w, t) && SameTrace(w.bookings[w.ledger.txs[t].booking.value], w'.bookings[w.ledger.txs[t].booking.value]);
      }
    }
  }

  /** Every write but a confirmation keeps the trace as it is. */
  lemma OtherWritesKeepTrace(w: World, c: Write)
    requires Linked(w) && Fits(w, c) && !c.Confirm? && SlotsOk(w.slots)
    ensures TraceKept(w, Apply(w, c))
  {
    hide Booked, ReleaseAll;
    match c
    case CancelSchedule(_, ids) => ReleaseAllKeeps(w, ids);
    case Stock(m) => I.StepKeepsRows(w.ledger, m); hide I.Step;
    case _ =>
  }

  /** A confirmation links a new receipt, a new transaction and the booking, which had none. */
  lemma ConfirmKeepsTraced(w: World, b: nat, batch: string)
    requires Traced(w) && b < |w.bookings|
    ensures Traced(ConfirmWrite(w, b, batch).0)
  {
    var w' := ConfirmWrite(w, b, batch).0;
    if !ReceiptTaken(w, b, batch) {
      assert BookingTraced(w, b);
      assert w.bookings[b].receipt.None?;
      I.StepKeepsValid(w.ledger, I.Pending(batch, w.bookings[b].quantity, b));
      hide I.Valid, ReceiptTaken;
      forall b': nat | b' < |w'.bookings| ensures BookingTraced(w', b') {
        assert BookingTraced(w, b');
      }
      forall r: nat | r < |w'.receipts| ensures ReceiptTraced(w', r) {
        if r < |w.receipts| { assert ReceiptTraced(w, r); }
      }
      forall t: nat | t < |w'.ledger.txs| ensures TxTraced(w', t) {
        if t < |w.ledger.txs| { assert TxTraced(w, t); }
      }
      NewBatch(w, b, batch);
    }
  }

  lemma NewBatch(w: World, b: nat, batch: string)
    requires !ReceiptTaken(w, b, batch)
    ensures forall r :: 0 <= r < |w.receipts| ==> w.receipts[r].batch != batch
  {
  }

  lemma ApplyKeepsTraced(w: World, c: Write)
    requires Balanced(w) && Traced(w) && Fits(w, c)
    ensures Traced(Apply(w, c))
  {
    hide Traced, TraceKept, I.Valid;
    if c.Confirm? {
      ConfirmKeepsTraced(w, c.b, c.batch);
    } else {
      OtherWritesKeepTrace(w, c);
      OtherWritesKeepLedger(w, c);
      KeptTraceIsTraced(w, Apply(w, c));
    }
  }

  lemma OtherWritesKeepLedger(w: World, c: Write)
    requires Linked(w) && SlotsOk(w.slots) && Traced(w) && Fits(w, c) && !c.Confirm?
    ensures I.Valid(Apply(w, c).ledger)
  {
    assert I.Valid(w.ledger);
    hide Traced, I.Valid, Booked, ReleaseAll, I.Step;
    match c
    case CancelSchedule(_, ids) => ReleaseAllKeeps(w, ids);
    case Stock(m) => I.StepKeepsValid(w.ledger, m);
    case _ =>
  }

  lemma CommitKeepsTraced(rules: bool, w: World, c: Write)
    requires Balanced(w) && Traced(w) && Fits(w, c)
    ensures Traced(Commit(rules, w, c))
  {
    ApplyKeepsTraced(w, c);
    var w' := Apply(w, c);
    hide Apply, Fits, Balanced, CapacitiesOk;
    assert TraceKept(w', Recomputed(w')) && I.Valid(Recomputed(w').ledger) by { hide I.Valid; }
    KeptTraceIsTraced(w', Recomputed(w'));
  }

  lemma {:induction false} InterleaveKeepsTraced(rules: bool, w: World, writes: seq<Write>)
    requires Balanced(w) && Traced(w)
    ensures Traced(Interleave(rules, w, writes))
    decreases |writes|
  {
    if writes != [] {
      hide Balanced, Traced, Commit, Fits;
      if Fits(w, writes[0]) {
        CommitKeepsBalanced(rules, w, writes[0]);
        CommitKeepsTraced(rules, w, writes[0]);
        InterleaveKeepsTraced(rules, Commit(rules, w, writes[0]), writes[1..]);
      } else {
        InterleaveKeepsTraced(rules, w, writes[1..]);
      }
    }
  }

  /** A booking whose pickup is confirmed has exactly one receipt `r` and one stock transaction `t`, with its batch and
      its quantity, and that transaction reached the inventory once if it is confirmed and never otherwise. A
      booking that is not confirmed has neither. */
  ghost predicate OnePickup(w: World, b: nat, r: nat, t: nat)
    requires b < |w.bookings|
  {
    var booking := w.bookings[b];
    if booking.pickupConfirmed then
      && r < |w.receipts| && t < |w.ledger.txs|
      && (forall r' :: 0 <= r' < |w.receipts| ==> (w.receipts[r'].booking == b <==> r' == r))
      && (forall t' :: 0 <= t' < |w.ledger.txs| ==> (w.ledger.txs[t'].booking == Some(b) <==> t' == t))
      && booking.batch == Some(w.receipts[r].batch) == w.ledger.txs[t].batch
      && booking.quantity == w.receipts[r].quantity == w.ledger.txs[t].quantity
      && I.TimesReceived(w.ledger.log, t) == if w.ledger.txs[t].status.CONFIRMED? then 1 else 0
    else
      && (forall r' :: 0 <= r' < |w.receipts| ==> w.receipts[r'].booking != b)
      && (forall t' :: 0 <= t' < |w.ledger.txs| ==> w.ledger.txs[t'].booking != Some(b))
  }

  lemma TracedIsOnePickup(w: World, b: nat) returns (r: nat, t: nat)
    requires Traced(w) && b < |w.bookings|
    ensures OnePickup(w, b, r, t)
  {
    r, t := 0, 0;
    hide I.TimesReceived;
    assert BookingTraced(w, b);
    if w.bookings[b].pickupConfirmed {
      r := w.bookings[b].receipt.value;
      assert ReceiptTraced(w, r);
      t := w.receipts[r].tx;
      assert I.CountedOnce(w.ledger, t);
    }
    hide I.Valid;
    forall r' | 0 <= r' < |w.receipts| && w.receipts[r'].booking == b ensures w.bookings[b].receipt == Some(r') {
      assert ReceiptTraced(w, r');
    }
    forall t' | 0 <= t' < |w.ledger.txs| && w.ledger.txs[t'].booking == Some(b)
      ensures w.bookings[b].receipt.Some? && w.bookings[b].receipt.value < |w.receipts|
              && w.receipts[w.bookings[b].receipt.value].tx == t'
    {
      assert TxTraced(w, t');
    }
  }

  /** However the writes interleave, with or without the rules, every booking has one pickup or none. */
  lemma PickupProvenance(rules: bool, writes: seq<Write>, b: nat) returns (r: nat, t: nat)
    requires b < |Interleave(rules, Start(), writes).bookings|
    ensures OnePickup(Interleave(rules, Start(), writes), b, r, t)
  {
    hide Balanced, Traced, OnePickup, Interleave;
    InterleaveKeepsTraced(rules, Start(), writes);
    r, t := TracedIsOnePickup(Interleave(rules, Start(), writes), b);
  }

  /** Calls made one at a time are one of the interleavings of their writes. */
  lemma {:induction false} RunIsInterleaving(rules: bool, w: World, calls: seq<Call>) returns (writes: seq<Write>)
    requires Orderly(w) && AllValidated(calls)
    ensures Run(rules, w, calls) == Interleave(rules, w, writes)
    decreases |calls|
  {
    writes := [];
    if calls != [] {
      RuledStep(rules, w, calls[0]);
      CallIsWrite(w, calls[0]);
      var c := WriteOf(w, calls[0]);
      var w1 := Ruled(rules, w, CallAnswer(w, calls[0])).0;
      if w1 != w { CallIsCommit(rules, w, calls[0]); }
      hide CallStep, CallAnswer, WriteOf, Validated, Apply, Commit, Fits, Ruled;
      var rest := RunIsInterleaving(rules, w1, calls[1..]);
      writes := rest;
      if w1 != w {
        writes := [c] + rest;
        assert writes[0] == c && writes[1..] == rest;
      }
    }
  }

  lemma CallIsCommit(rules: bool, w: World, c: Call)
    requires Orderly(w) && Validated(c) && Ruled(rules, w, CallAnswer(w, c)).0 != w
    ensures Fits(w, WriteOf(w, c)) && Ruled(rules, w, CallAnswer(w, c)).0 == Commit(rules, w, WriteOf(w, c))
  {
    CallIsWrite(w, c);
    RuledStep(rules, w, c);
    CallKeepsOrderly(w, c);
    OrderlyIsRecomputed(CallStep(w, c));
    RefusedKeeps(w, c);
    hide Orderly, CallAnswer, Validated, CapacitiesOk, Recomputed, Apply, Fits, WriteOf;
  }

  lemma RefusedKeeps(w: World, c: Call)
    requires Linked(w)
    ensures CallAnswer(w, c).1.Refused? ==> CallStep(w, c) == w
  {
  }

  // ---------- who changes what ----------

  /** A booking changes only for its farmer, or when its schedule's provider cancels the schedule; a schedule's total
      and status only for its provider. */
  lemma OnlyOwners(w: World, c: Call, i: nat, s: nat)
    requires Linked(w)
    ensures i < |w.bookings| && CallStep(w, c).bookings[i] != w.bookings[i] ==>
              || (c.CancelBooking? && c.b == i && c.farmer == w.bookings[i].farmer)
              || (c.ConfirmPickup? && c.b == i && c.farmer == w.bookings[i].farmer && c.arrived)
              || (c.CancelSchedule? && c.s == w.bookings[i].schedule && c.provider == w.schedules[c.s].provider)
    ensures s < |w.schedules|
            && (CallStep(w, c).schedules[s].total != w.schedules[s].total
                || CallStep(w, c).schedules[s].status != w.schedules[s].status) ==>
              (c.UpdateSchedule? || c.PublishSchedule? || c.CancelSchedule?) && c.s == s && c.provider == w.schedules[s].provider
  {
    hide ReceiptTaken, BookingsOf, ReleaseAll, Booked;
    if c.CancelSchedule? && i < |w.bookings| {
      BookingsOfAre(w.bookings, c.s);
      ReleaseAllAt(w, BookingsOf(w.bookings, c.s), i);
      InBookingsOf(w.bookings, c.s, i);
    }
  }

  /** A pickup is confirmed exactly when its farmer asks once the time has come, it is neither confirmed nor cancelled,
      and no receipt has its batch: the booking itself never stands in the way. */
  lemma ConfirmedIff(w: World, b: nat, batch: Option<string>, generated: string, arrived: bool, farmer: nat)
    requires Traced(w)
    ensures ConfirmPickupStep(w, b, batch, generated, arrived, farmer).1.Done?
            <==> && b < |w.bookings| && w.bookings[b].farmer == farmer && arrived
                 && !w.bookings[b].pickupConfirmed && !w.bookings[b].status.BOOKING_CANCELLED?
                 && forall r :: 0 <= r < |w.receipts| ==> w.receipts[r].batch != batch.GetOr(generated)
  {
    hide I.Valid;
    if b < |w.bookings| && !w.bookings[b].pickupConfirmed {
      assert BookingTraced(w, b);
      forall r: nat | r < |w.receipts| ensures w.receipts[r].booking != b { assert ReceiptTraced(w, r); }
    }
  }
}

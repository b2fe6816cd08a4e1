/** The inventory ledger: stock transactions, the on-hand quantity of every batch, and the
    movements log it is replayed from. Quantities are in kilograms. */
module Inventory {
  import opened Results

  datatype Kind = STOCK_IN | STOCK_OUT | TRANSFER
  datatype Status = PENDING_CONFIRMATION | CONFIRMED | REJECTED

  /** `booking` is not a column: it records which pickup booking the row was created for, which
      the service writes into its notes. */
  datatype StockTx = StockTx(kind: Kind, status: Status, batch: Option<string>, quantity: real, booking: Option<nat>)

  /** What the log keeps of a call that reached the inventory. Transactions and orders are named by id. */
  datatype Movement =
    | Received(tx: nat, batch: string, quantity: real)
    | Released(tx: nat, batch: string, quantity: real)
    | Processed(order: nat, batch: string, quantity: real)

  /** `txs` is the transaction table, a row's id being its index; `items` is the inventory table by its
      unique batch id; `log` is specification only. */
  datatype Ledger = Ledger(txs: seq<StockTx>, items: map<string, real>, log: seq<Movement>)

  const EMPTY := Ledger([], map[], [])

  function OnHand(items: map<string, real>, batch: string): real {
    if batch in items then items[batch] else 0.0
  }

  /** Creates the batch's inventory row or adds to it. */
  function Receive(l: Ledger, tx: nat, batch: string, quantity: real): Ledger {
    l.(items := l.items[batch := if batch in l.items then l.items[batch] + quantity else quantity],
       log := l.log + [Received(tx, batch, quantity)])
  }

  function StockInStep(l: Ledger, transfer: bool, batch: Option<string>, generated: string, quantity: real): Ledger {
    var b := batch.GetOr(generated);
    var tx := StockTx(if transfer then TRANSFER else STOCK_IN, CONFIRMED, Some(b), quantity, None);
    Receive(l.(txs := l.txs + [tx]), |l.txs|, b, quantity)
  }

  /** What a confirmation writes, whatever its check has seen before: the row's status, then the receipt. */
  function ConfirmWrites(l: Ledger, id: nat): Ledger
    requires id < |l.txs|
  {
    var l' := l.(txs := l.txs[id := l.txs[id].(status := CONFIRMED)]);
    if l.txs[id].batch.Some? then Receive(l', id, l.txs[id].batch.value, l.txs[id].quantity) else l'
  }

  function ConfirmStep(l: Ledger, id: nat): (Ledger, Outcome) {
    if id >= |l.txs| then (l, Refused(NotFound))
    else if !l.txs[id].status.PENDING_CONFIRMATION? then (l, Refused(BadRequest))
    else if !l.txs[id].kind.STOCK_IN? then (l, Refused(BadRequest))
    else (ConfirmWrites(l, id), Done)
  }

  function RejectStep(l: Ledger, id: nat): (Ledger, Outcome) {
    if id >= |l.txs| then (l, Refused(NotFound))
    else if !l.txs[id].status.PENDING_CONFIRMATION? then (l, Refused(BadRequest))
    else (l.(txs := l.txs[id := l.txs[id].(status := REJECTED)]), Done)
  }

  /** `centerStock` is the stock figure of the center, which no service code maintains. */
  function StockOutStep(l: Ledger, batch: Option<string>, quantity: real, centerStock: real): (Ledger, Outcome) {
    if centerStock < quantity then (l, Refused(BadRequest))
    else
      var l' := l.(txs := l.txs + [StockTx(STOCK_OUT, PENDING_CONFIRMATION, batch, quantity, None)]);
      if batch.Some? && batch.value in l.items then
        var b, left := batch.value, l.items[batch.value] - quantity;
        (l'.(items := if left <= 0.0 then l.items - {b} else l.items[b := left],
             log := l.log + [Released(|l.txs|, b, quantity)]), Done)
      else (l', Done)
  }

  /** The pending transaction a pickup confirmation creates. */
  function PendingStep(l: Ledger, batch: string, quantity: real, booking: nat): Ledger {
    l.(txs := l.txs + [StockTx(STOCK_IN, PENDING_CONFIRMATION, Some(batch), quantity, Some(booking))])
  }

  /** The deduction made when an order starts processing: refused when the batch holds less, skipped
      when the batch is not in the inventory. */
  function DeductStep(l: Ledger, order: nat, batch: string, quantity: real): (Ledger, Outcome) {
    if batch !in l.items then (l, Done)
    else if quantity > l.items[batch] then (l, Refused(BadRequest))
    else
      var left := l.items[batch] - quantity;
      (l.(items := l.items[batch := if left > 0.0 then left else 0.0],
          log := l.log + [Processed(order, batch, quantity)]), Done)
  }

  // ---------- replay and conservation ----------

  /** The on-hand quantity of a batch, from the log alone. */
  function Replay(log: seq<Movement>, batch: string): real {
    if log == [] then 0.0
    else
      var before := Replay(log[..|log| - 1], batch);
      match log[|log| - 1]
      case Received(_, b, q) => if b == batch then before + q else before
      case Released(_, b, q) => if b == batch then before - Taken(before, q) else before
      case Processed(_, b, q) => if b == batch then before - q else before
  }

  /** What a stock-out of `q` takes from a batch that holds `held`. */
  function Taken(held: real, q: real): real {
    if q < held then q else held
  }

  function TakenByStockOuts(log: seq<Movement>, batch: string): real {
    if log == [] then 0.0
    else
      var rest := log[..|log| - 1];
      TakenByStockOuts(rest, batch)
      + match log[|log| - 1]
        case Released(_, b, q) => if b == batch then Taken(Replay(rest, batch), q) else 0.0
        case _ => 0.0
  }

  function ProcessedFrom(log: seq<Movement>, batch: string): real {
    if log == [] then 0.0
    else
      ProcessedFrom(log[..|log| - 1], batch)
      + match log[|log| - 1]
        case Processed(_, b, q) => if b == batch then q else 0.0
        case _ => 0.0
  }

  predicate Inbound(tx: StockTx) {
    !tx.kind.STOCK_OUT?
  }

  /** What a transaction row brings to a batch: its quantity when it is a confirmed stock-in or transfer. */
  function Brought(tx: StockTx, batch: string): real {
    if Inbound(tx) && tx.status.CONFIRMED? && tx.batch == Some(batch) then tx.quantity else 0.0
  }

  function ConfirmedInto(txs: seq<StockTx>, batch: string): real {
    if txs == [] then 0.0 else ConfirmedInto(txs[..|txs| - 1], batch) + Brought(txs[|txs| - 1], batch)
  }

  function TimesReceived(log: seq<Movement>, tx: nat): nat {
    if log == [] then 0
    else TimesReceived(log[..|log| - 1], tx) + if log[|log| - 1].Received? && log[|log| - 1].tx == tx then 1 else 0
  }

  function TimesProcessed(log: seq<Movement>, order: nat): nat {
    if log == [] then 0
    else TimesProcessed(log[..|log| - 1], order) + if log[|log| - 1].Processed? && log[|log| - 1].order == order then 1 else 0
  }

  /** What holds of one batch. */
  predicate BatchOk(l: Ledger, batch: string) {
    && OnHand(l.items, batch) == Replay(l.log, batch) >= 0.0
    && OnHand(l.items, batch) + ProcessedFrom(l.log, batch) + TakenByStockOuts(l.log, batch) == ConfirmedInto(l.txs, batch)
  }

  /** A transaction enters the inventory once if it is a confirmed stock-in or transfer with a batch, and
      never otherwise. */
  predicate CountedOnce(l: Ledger, id: nat) {
    TimesReceived(l.log, id)
    == if id < |l.txs| && Inbound(l.txs[id]) && l.txs[id].status.CONFIRMED? && l.txs[id].batch.Some? then 1 else 0
  }

  /** What the inventory received for a transaction is that transaction's quantity, in its batch. */
  predicate Matches(l: Ledger, m: Movement) {
    m.Received? ==> m.tx < |l.txs| && l.txs[m.tx].batch == Some(m.batch) && l.txs[m.tx].quantity == m.quantity
  }

  ghost predicate Valid(l: Ledger) {
    && (forall t :: t in l.txs ==> t.quantity >= 0.0)
    && (forall m :: m in l.log ==> Matches(l, m))
    && (forall b :: BatchOk(l, b))
    && (forall id: nat :: CountedOnce(l, id))
  }

  // ---------- the invariant of every run ----------

  /** The calls, with the quantities the request validation lets through. */
  datatype Event =
    | StockIn(transfer: bool, batch: Option<string>, generated: string, quantity: real)
    | Confirm(id: nat)
    | Reject(id: nat)
    | StockOut(batch: Option<string>, quantity: real, centerStock: real)
    | Pending(into: string, quantity: real, booking: nat)
    | Deduct(order: nat, from: string, quantity: real)

  predicate Allowed(e: Event) {
    e.Confirm? || e.Reject? || e.quantity >= 0.0
  }

  function Step(l: Ledger, e: Event): Ledger {
    match e
    case StockIn(transfer, batch, generated, q) => StockInStep(l, transfer, batch, generated, q)
    case Confirm(id) => ConfirmStep(l, id).0
    case Reject(id) => RejectStep(l, id).0
    case StockOut(batch, q, stock) => StockOutStep(l, batch, q, stock).0
    case Pending(batch, q, booking) => PendingStep(l, batch, q, booking)
    case Deduct(order, batch, q) => DeductStep(l, order, batch, q).0
  }

  lemma {:induction false} ConfirmedAfterUpdate(txs: seq<StockTx>, id: nat, tx: StockTx, batch: string)
    requires id < |txs|
    ensures ConfirmedInto(txs[id := tx], batch) == ConfirmedInto(txs, batch) - Brought(txs[id], batch) + Brought(tx, batch)
  {
    var n := |txs| - 1;
    if id == n {
      assert txs[id := tx][..n] == txs[..n];
    } else {
      assert txs[id := tx][..n] == txs[..n][id := tx];
      ConfirmedAfterUpdate(txs[..n], id, tx, batch);
    }
  }

  /** One more row in the table, one more movement in the log: what the sums become. */
  lemma Appended(l: Ledger, tx: StockTx, m: Movement, batch: string, id: nat)
    ensures ConfirmedInto(l.txs + [tx], batch) == ConfirmedInto(l.txs, batch) + Brought(tx, batch)
    ensures Replay(l.log + [m], batch) == Replay(l.log, batch)
            + (match m case Received(_, b, q) => if b == batch then q else 0.0
                       case Released(_, b, q) => if b == batch then -Taken(Replay(l.log, batch), q) else 0.0
                       case Processed(_, b, q) => if b == batch then -q else 0.0)
    ensures TakenByStockOuts(l.log + [m], batch) == TakenByStockOuts(l.log, batch)
            + if m.Released? && m.batch == batch then Taken(Replay(l.log, batch), m.quantity) else 0.0
    ensures ProcessedFrom(l.log + [m], batch) == ProcessedFrom(l.log, batch)
            + if m.Processed? && m.batch == batch then m.quantity else 0.0
    ensures TimesReceived(l.log + [m], id) == TimesReceived(l.log, id) + if m.Received? && m.tx == id then 1 else 0
    ensures TimesProcessed(l.log + [m], id) == TimesProcessed(l.log, id) + if m.Processed? && m.order == id then 1 else 0
  {
    assert (l.txs + [tx])[..|l.txs|] == l.txs;
    assert (l.log + [m])[..|l.log|] == l.log;
  }

  const NO_TX := StockTx(STOCK_OUT, REJECTED, None, 0.0, None)

  lemma StockInKeepsBatch(l: Ledger, transfer: bool, b: string, q: real, batch: string)
    requires BatchOk(l, batch) && q >= 0.0
    ensures BatchOk(StockInStep(l, transfer, Some(b), b, q), batch)
  {
    hide Replay, TakenByStockOuts, ProcessedFrom, ConfirmedInto;
    var tx := StockTx(if transfer then TRANSFER else STOCK_IN, CONFIRMED, Some(b), q, None);
    Appended(l, tx, Received(|l.txs|, b, q), batch, 0);
  }

  lemma StockOutKeepsBatch(l: Ledger, b: Option<string>, q: real, stock: real, batch: string)
    requires BatchOk(l, batch) && q >= 0.0
    ensures BatchOk(StockOutStep(l, b, q, stock).0, batch)
  {
    hide Replay, TakenByStockOuts, ProcessedFrom, ConfirmedInto;
    Appended(l, StockTx(STOCK_OUT, PENDING_CONFIRMATION, b, q, None), Released(|l.txs|, b.GetOr(""), q), batch, 0);
  }

  lemma DeductKeepsBatch(l: Ledger, order: nat, b: string, q: real, batch: string)
    requires BatchOk(l, batch)
    ensures BatchOk(DeductStep(l, order, b, q).0, batch)
  {
    hide Replay, TakenByStockOuts, ProcessedFrom, ConfirmedInto;
    Appended(l, NO_TX, Processed(order, b, q), batch, 0);
  }

  lemma PendingKeepsBatch(l: Ledger, b: string, q: real, booking: nat, batch: string)
    requires BatchOk(l, batch)
    ensures BatchOk(PendingStep(l, b, q, booking), batch)
  {
    hide Replay, TakenByStockOuts, ProcessedFrom, ConfirmedInto;
    Appended(l, StockTx(STOCK_IN, PENDING_CONFIRMATION, Some(b), q, Some(booking)), Received(0, "", 0.0), batch, 0);
  }

  lemma StepKeepsBatch(l: Ledger, e: Event, batch: string)
    requires Valid(l) && Allowed(e)
    ensures BatchOk(Step(l, e), batch)
  {
    assert BatchOk(l, batch);
    assert e.Confirm? && e.id < |l.txs| ==> l.txs[e.id] in l.txs;
    hide BatchOk, Valid, ConfirmStep, RejectStep, StockOutStep, DeductStep, PendingStep;
    match e
    case StockIn(transfer, b, generated, q) => StockInKeepsBatch(l, transfer, b.GetOr(generated), q, batch);
    case Confirm(id) => ConfirmKeepsBatch(l, id, batch);
    case Reject(id) => RejectKeepsBatch(l, id, batch);
    case StockOut(b, q, stock) => StockOutKeepsBatch(l, b, q, stock, batch);
    case Pending(b, q, booking) => PendingKeepsBatch(l, b, q, booking, batch);
    case Deduct(order, b, q) => DeductKeepsBatch(l, order, b, q, batch);
  }

  lemma ConfirmKeepsBatch(l: Ledger, id: nat, batch: string)
    requires BatchOk(l, batch) && (id < |l.txs| ==> l.txs[id].quantity >= 0.0)
    ensures BatchOk(ConfirmStep(l, id).0, batch)
  {
    hide Replay, TakenByStockOuts, ProcessedFrom, ConfirmedInto;
    if id < |l.txs| {
      var tx := l.txs[id];
      ConfirmedAfterUpdate(l.txs, id, tx.(status := CONFIRMED), batch);
      Appended(l, NO_TX, Received(id, tx.batch.GetOr(""), tx.quantity), batch, 0);
    }
  }

  lemma RejectKeepsBatch(l: Ledger, id: nat, batch: string)
    requires BatchOk(l, batch)
    ensures BatchOk(RejectStep(l, id).0, batch)
  {
    hide Replay, TakenByStockOuts, ProcessedFrom, ConfirmedInto;
    if id < |l.txs| {
      ConfirmedAfterUpdate(l.txs, id, l.txs[id].(status := REJECTED), batch);
    }
  }

  lemma StepKeepsCount(l: Ledger, e: Event, id: nat)
    requires CountedOnce(l, id)
    ensures CountedOnce(Step(l, e), id)
  {
    hide TimesReceived, Replay, TakenByStockOuts, ProcessedFrom, ConfirmedInto, TimesProcessed;
    var l' := Step(l, e);
    if |l'.log| > |l.log| {
      Appended(l, NO_TX, l'.log[|l.log|], "", id);
    }
  }

  /** A step keeps every row but for its status, and names the right row in what it logs. */
  lemma StepKeepsRows(l: Ledger, e: Event)
    ensures var l' := Step(l, e);
            && |l.txs| <= |l'.txs|
            && (forall t :: 0 <= t < |l.txs| ==> l'.txs[t] == l.txs[t].(status := l'.txs[t].status))
            && (forall t :: |l.txs| <= t < |l'.txs| && !e.Pending? ==> l'.txs[t].booking.None?)
            && (forall m :: m in l'.log ==> m in l.log || Matches(l', m))
  {
  }

  lemma StepKeepsMatches(l: Ledger, e: Event, m: Movement)
    requires Valid(l) && m in Step(l, e).log
    ensures Matches(Step(l, e), m)
  {
    StepKeepsRows(l, e);
    hide Step, BatchOk, CountedOnce;
    if m in l.log { assert Matches(l, m); }
  }

  lemma StepKeepsValid(l: Ledger, e: Event)
    requires Valid(l) && Allowed(e)
    ensures Valid(Step(l, e))
  {
    var l' := Step(l, e);
    forall m | m in l'.log ensures Matches(l', m) { StepKeepsMatches(l, e, m); }
    forall b ensures BatchOk(l', b) { StepKeepsBatch(l, e, b); }
    forall id: nat ensures CountedOnce(l', id) { StepKeepsCount(l, e, id); }
    hide BatchOk, CountedOnce, Matches;
  }

  lemma EmptyIsValid()
    ensures Valid(EMPTY)
  {
  }

  ghost predicate AllAllowed(events: seq<Event>) {
    forall e :: e in events ==> Allowed(e)
  }

  function Run(l: Ledger, events: seq<Event>): Ledger
    decreases |events|
  {
    if events == [] then l else Run(Step(l, events[0]), events[1..])
  }

  lemma {:induction false} RunKeepsValid(l: Ledger, events: seq<Event>)
    requires Valid(l) && AllAllowed(events)
    ensures Valid(Run(l, events))
    decreases |events|
  {
    if events != [] {
      hide Valid, Step, Allowed;
      StepKeepsValid(l, events[0]);
      RunKeepsValid(Step(l, events[0]), events[1..]);
    }
  }

  /** After any run from an empty ledger: every batch's on-hand quantity is the replay of the log and is not
      negative; on hand, processed and taken by stock-outs add up to the confirmed stock-ins
      and transfers; and each of those was received exactly once, in its own batch and
      with its own quantity, everything else never. */
  lemma LedgerAgreesWithLog(events: seq<Event>, batch: string, id: nat)
    requires AllAllowed(events)
    ensures var l := Run(EMPTY, events);
            && OnHand(l.items, batch) == Replay(l.log, batch) >= 0.0
            && OnHand(l.items, batch) + ProcessedFrom(l.log, batch) + TakenByStockOuts(l.log, batch) == ConfirmedInto(l.txs, batch)
            && TimesReceived(l.log, id)
               == (if id < |l.txs| && Inbound(l.txs[id]) && l.txs[id].status.CONFIRMED? && l.txs[id].batch.Some? then 1 else 0)
            && (forall m :: m in l.log ==> Matches(l, m))
  {
    RunKeepsValid(EMPTY, events);
    hide Run, AllAllowed, Matches;
    assert BatchOk(Run(EMPTY, events), batch) && CountedOnce(Run(EMPTY, events), id);
  }

  /** A row that is not confirmed could as well be pending. */
  lemma PendingInstead(l: Ledger, id: nat)
    requires Valid(l) && id < |l.txs| && !l.txs[id].status.CONFIRMED?
    ensures Valid(l.(txs := l.txs[id := l.txs[id].(status := PENDING_CONFIRMATION)]))
  {
    var tx := l.txs[id].(status := PENDING_CONFIRMATION);
    var l' := l.(txs := l.txs[id := tx]);
    assert l.txs[id] in l.txs;
    forall b ensures BatchOk(l', b) {
      assert BatchOk(l, b);
      hide Replay, TakenByStockOuts, ProcessedFrom, ConfirmedInto, CountedOnce;
      ConfirmedAfterUpdate(l.txs, id, tx, b);
    }
    forall i: nat ensures CountedOnce(l', i) { assert CountedOnce(l, i); hide TimesReceived, BatchOk; }
    forall m | m in l'.log ensures Matches(l', m) { assert Matches(l, m); }
    hide BatchOk, CountedOnce, Matches;
  }

  /** The check and the writes of a confirmation are separate database calls. When another call runs between them,
      the writes keep the ledger valid exactly when the row has not been confirmed in the meantime; otherwise
      its quantity enters the inventory a second time. */
  lemma LateConfirmationIff(l: Ledger, id: nat)
    requires Valid(l) && id < |l.txs| && l.txs[id].kind.STOCK_IN? && l.txs[id].batch.Some?
    ensures var l' := ConfirmWrites(l, id);
            && (Valid(l') <==> !l.txs[id].status.CONFIRMED?)
            && TimesReceived(l'.log, id) == (if l.txs[id].status.CONFIRMED? then 2 else 1)
            && OnHand(l'.items, l.txs[id].batch.value) == OnHand(l.items, l.txs[id].batch.value) + l.txs[id].quantity
  {
    var l' := ConfirmWrites(l, id);
    var tx := l.txs[id];
    Appended(l, NO_TX, Received(id, tx.batch.value, tx.quantity), "", id);
    assert CountedOnce(l, id);
    if tx.status.CONFIRMED? {
      assert !CountedOnce(l', id);
    } else {
      UnconfirmedIsReceived(l, id);
    }
    hide BatchOk, TimesReceived, Matches;
  }

  lemma UnconfirmedIsReceived(l: Ledger, id: nat)
    requires Valid(l) && id < |l.txs| && l.txs[id].kind.STOCK_IN? && !l.txs[id].status.CONFIRMED?
    ensures Valid(ConfirmWrites(l, id))
  {
    hide Valid;
    var before := l.(txs := l.txs[id := l.txs[id].(status := PENDING_CONFIRMATION)]);
    PendingInstead(l, id);
    StepKeepsValid(before, Confirm(id));
    assert before.txs[id := before.txs[id].(status := CONFIRMED)] == ConfirmWrites(l, id).txs;
    assert Step(before, Confirm(id)) == ConfirmWrites(l, id);
  }

  /** A stock-out row stays open for rejection, and rejecting it puts nothing back. */
  lemma RejectedStockOutKeepsDeduction(l: Ledger, batch: string, quantity: real, centerStock: real)
    requires Valid(l) && 0.0 < quantity <= centerStock && batch in l.items
    ensures var out := StockOutStep(l, Some(batch), quantity, centerStock).0;
            var (after, r) := RejectStep(out, |l.txs|);
            && r.Done?
            && OnHand(after.items, batch) == OnHand(l.items, batch) - Taken(OnHand(l.items, batch), quantity)
            && ConfirmedInto(after.txs, batch) == ConfirmedInto(l.txs, batch)
  {
    var out := StockOutStep(l, Some(batch), quantity, centerStock).0;
    var row := out.txs[|l.txs|];
    Appended(l, row, Received(0, "", 0.0), batch, 0);
    ConfirmedAfterUpdate(out.txs, |l.txs|, row.(status := REJECTED), batch);
    assert BatchOk(l, batch);
  }

  /** A deduction that is not refused takes the order's quantity from its batch once, if the batch is in the
      inventory; otherwise nothing changes. */
  lemma DeductIff(l: Ledger, order: nat, batch: string, quantity: real)
    requires BatchOk(l, batch)
    ensures var (l', r) := DeductStep(l, order, batch, quantity);
            if r.Done? && batch in l.items then
              && TimesProcessed(l'.log, order) == TimesProcessed(l.log, order) + 1
              && OnHand(l'.items, batch) == OnHand(l.items, batch) - quantity
            else l' == l
  {
    hide TimesProcessed, Replay, ConfirmedInto, ProcessedFrom, TakenByStockOuts;
    Appended(l, NO_TX, Processed(order, batch, quantity), "", order);
  }

  /** The deduction in a database that keeps inventory quantities positive: writing a zero fails, and the service
      logs that failure and goes on. */
  function CheckedDeductStep(l: Ledger, order: nat, batch: string, quantity: real): (Ledger, Outcome) {
    var (l', r) := DeductStep(l, order, batch, quantity);
    if r.Done? && batch in l'.items && l'.items[batch] <= 0.0 then (l, Done) else (l', r)
  }

  /** With that check nothing is ever deducted but what the service deducts without it, and the one difference is an
      order for exactly what its batch holds: it goes through, and its batch stays as it was. */
  lemma WholeBatchStays(l: Ledger, order: nat, batch: string, quantity: real)
    requires Valid(l) && quantity > 0.0
    ensures var (checked, r) := CheckedDeductStep(l, order, batch, quantity);
            var (l', r') := DeductStep(l, order, batch, quantity);
            && r == r' && Valid(checked)
            && (checked != l' <==> batch in l.items && l.items[batch] == quantity)
            && (checked != l' ==> checked == l)
  {
    assert BatchOk(l, batch);
    StepKeepsValid(l, Deduct(order, batch, quantity));
    hide Valid, Replay, TakenByStockOuts, ProcessedFrom, ConfirmedInto;
    assert |l.log + [Processed(order, batch, quantity)]| == |l.log| + 1;
  }

  // ---------- what each call answers and leaves ----------

  /** The rows but `id`, and the quantities of the batches but `batch`, are as they were. */
  ghost predicate OthersKept(l: Ledger, l': Ledger, id: nat, batch: Option<string>) {
    && |l.txs| <= |l'.txs| && (forall i :: 0 <= i < |l.txs| && i != id ==> l'.txs[i] == l.txs[i])
    && (forall b :: batch != Some(b) ==> (b in l'.items <==> b in l.items) && OnHand(l'.items, b) == OnHand(l.items, b))
  }

  /** A rejection is made exactly of a row that is pending. It marks the row and touches no quantity. */
  lemma RejectedIff(l: Ledger, id: nat)
    ensures var (l', r) := RejectStep(l, id);
            && (r.Done? <==> id < |l.txs| && l.txs[id].status.PENDING_CONFIRMATION?)
            && l'.items == l.items && l'.log == l.log && |l'.txs| == |l.txs| && OthersKept(l, l', id, None)
            && (id < |l.txs| ==> l'.txs[id] == l.txs[id].(status := if r.Done? then REJECTED else l.txs[id].status))
  {
  }

  /** A confirmation is made exactly of a stock-in that is pending. It marks the row and receives its quantity once. */
  lemma ConfirmedIff(l: Ledger, id: nat)
    requires Valid(l)
    ensures var (l', r) := ConfirmStep(l, id);
            && (r.Done? <==> id < |l.txs| && l.txs[id].status.PENDING_CONFIRMATION? && l.txs[id].kind.STOCK_IN?)
            && (r.Refused? ==> l' == l)
            && (r.Done? ==>
                  && |l'.txs| == |l.txs| && l'.txs[id] == l.txs[id].(status := CONFIRMED)
                  && OthersKept(l, l', id, l.txs[id].batch)
                  && TimesReceived(l'.log, id) == (if l.txs[id].batch.Some? then 1 else 0)
                  && forall b :: l.txs[id].batch == Some(b) ==>
                       b in l'.items && OnHand(l'.items, b) == OnHand(l.items, b) + l.txs[id].quantity)
  {
    assert CountedOnce(l, id);
    StepKeepsCount(l, Confirm(id), id);
    hide Valid, TimesReceived;
  }

  lemma {:induction false} SettledStays(l: Ledger, events: seq<Event>, id: nat)
    requires id < |l.txs| && !l.txs[id].status.PENDING_CONFIRMATION?
    ensures id < |Run(l, events).txs| && Run(l, events).txs[id] == l.txs[id]
    decreases |events|
  {
    if events != [] {
      assert id < |Step(l, events[0]).txs| && Step(l, events[0]).txs[id] == l.txs[id];
      hide Step;
      SettledStays(Step(l, events[0]), events[1..], id);
    }
  }

  /** A row once confirmed or rejected is neither confirmed nor rejected again. */
  lemma SettledRefuses(l: Ledger, events: seq<Event>, id: nat)
    requires id < |l.txs| && !l.txs[id].status.PENDING_CONFIRMATION?
    ensures var end := Run(l, events); ConfirmStep(end, id).1.Refused? && RejectStep(end, id).1.Refused?
  {
    SettledStays(l, events, id);
    hide Run;
  }

  /** A rejection is for good: whatever is called later, the row stays rejected, is never received, and can
      neither be confirmed nor rejected again. */
  lemma RejectedForGood(l: Ledger, id: nat, events: seq<Event>)
    requires Valid(l) && RejectStep(l, id).1.Done? && AllAllowed(events)
    ensures var end := Run(RejectStep(l, id).0, events);
            && id < |end.txs| && end.txs[id].status.REJECTED? && TimesReceived(end.log, id) == 0
            && ConfirmStep(end, id).1.Refused? && RejectStep(end, id).1.Refused?
  {
    var l1 := RejectStep(l, id).0;
    StepKeepsValid(l, Reject(id));
    RunKeepsValid(l1, events);
    SettledStays(l1, events, id);
    SettledRefuses(l1, events, id);
    hide Run, TimesReceived;
    assert CountedOnce(Run(l1, events), id);
  }

  /** And so is a confirmation: the row is received once, never again. */
  lemma ConfirmedForGood(l: Ledger, id: nat, events: seq<Event>)
    requires Valid(l) && ConfirmStep(l, id).1.Done? && AllAllowed(events)
    ensures var end := Run(ConfirmStep(l, id).0, events);
            && id < |end.txs| && end.txs[id].status.CONFIRMED?
            && TimesReceived(end.log, id) == (if end.txs[id].batch.Some? then 1 else 0)
            && ConfirmStep(end, id).1.Refused? && RejectStep(end, id).1.Refused?
  {
    var l1 := ConfirmStep(l, id).0;
    StepKeepsValid(l, Confirm(id));
    RunKeepsValid(l1, events);
    SettledStays(l1, events, id);
    SettledRefuses(l1, events, id);
    hide Run, TimesReceived;
    assert CountedOnce(Run(l1, events), id);
  }

  /** A stock-in or transfer adds one confirmed row, with the caller's batch or the generated one, and its quantity to that batch. */
  lemma StockInAdds(l: Ledger, transfer: bool, batch: Option<string>, generated: string, quantity: real)
    ensures var l' := StockInStep(l, transfer, batch, generated, quantity);
            var b := if batch.Some? then batch.value else generated;
            && |l'.txs| == |l.txs| + 1 && OthersKept(l, l', |l.txs|, Some(b))
            && b in l'.items && OnHand(l'.items, b) == OnHand(l.items, b) + quantity
            && var row := l'.txs[|l.txs|];
               && row.status.CONFIRMED? && row.batch == Some(b) && row.quantity == quantity && row.booking.None?
               && (if transfer then row.kind.TRANSFER? else row.kind.STOCK_IN?)
  {
  }

  /** A stock-out is made exactly when the center's figure covers it. It adds one pending row and takes from its batch what
      is there, up to its quantity; an emptied batch is no longer in the inventory. */
  lemma StockOutIff(l: Ledger, batch: Option<string>, quantity: real, centerStock: real)
    ensures var (l', r) := StockOutStep(l, batch, quantity, centerStock);
            && (r.Done? <==> quantity <= centerStock)
            && (r.Refused? ==> l' == l)
            && (r.Done? ==>
                  && |l'.txs| == |l.txs| + 1 && OthersKept(l, l', |l.txs|, batch)
                  && (var row := l'.txs[|l.txs|];
                      row.kind.STOCK_OUT? && row.status.PENDING_CONFIRMATION? && row.batch == batch && row.quantity == quantity && row.booking.None?)
                  && forall b :: batch == Some(b) ==>
                       && OnHand(l'.items, b) == (if b in l.items && quantity < OnHand(l.items, b) then OnHand(l.items, b) - quantity else 0.0)
                       && (b in l'.items <==> b in l.items && quantity < OnHand(l.items, b)))
  {
  }

  /** A deduction is refused exactly when the batch is in the inventory and holds less; no row and no other batch changes. */
  lemma DeductedIff(l: Ledger, order: nat, batch: string, quantity: real)
    ensures var (l', r) := DeductStep(l, order, batch, quantity);
            && (r.Refused? <==> batch in l.items && OnHand(l.items, batch) < quantity)
            && l'.txs == l.txs && OthersKept(l, l', |l.txs|, Some(batch)) && (batch in l'.items <==> batch in l.items)
            && OnHand(l'.items, batch) == OnHand(l.items, batch) - if r.Done? && batch in l.items then quantity else 0.0
  {
  }

  /** The pending row of a pickup adds nothing to the inventory yet. */
  lemma PendingAdds(l: Ledger, batch: string, quantity: real, booking: nat)
    ensures var l' := PendingStep(l, batch, quantity, booking);
            && |l'.txs| == |l.txs| + 1 && l'.items == l.items && l'.log == l.log && OthersKept(l, l', |l.txs|, None)
            && var row := l'.txs[|l.txs|];
               row.kind.STOCK_IN? && row.status.PENDING_CONFIRMATION? && row.batch == Some(batch) && row.quantity == quantity
               && row.booking == Some(booking)
  {
  }

  // ---------- the service ----------

  class AggregationService {
    var txs: seq<StockTx>
    var items: map<string, real>
    ghost var log: seq<Movement>

    ghost function State(): Ledger
      reads this
    {
      Ledger(txs, items, log)
    }

    constructor ()
      ensures State() == EMPTY
    {
      txs, items, log := [], map[], [];
    }

    /** The find, then create or update, shared by stock-in and confirmation. */
    method ReceiveBatch(tx: nat, batch: string, quantity: real)
      modifies this
      ensures State() == Receive(old(State()), tx, batch, quantity)
    {
      if batch !in items {
        items := items[batch := quantity];
      } else {
        items := items[batch := items[batch] + quantity];
      }
      log := log + [Received(tx, batch, quantity)];
    }

    method CreateStockIn(transfer: bool, batch: Option<string>, generated: string, quantity: real) returns (id: nat)
      modifies this
      ensures State() == StockInStep(old(State()), transfer, batch, generated, quantity)
      ensures id == |old(txs)|
    {
      var batchId := generated;
      if batch.Some? {
        batchId := batch.value;
      }
      id := |txs|;
      txs := txs + [StockTx(if transfer then TRANSFER else STOCK_IN, CONFIRMED, Some(batchId), quantity, None)];
      ReceiveBatch(id, batchId, quantity);
    }

    /** The row a pickup confirmation creates. */
    method CreatePending(batch: string, quantity: real, booking: nat) returns (id: nat)
      modifies this
      ensures State() == PendingStep(old(State()), batch, quantity, booking)
      ensures id == |old(txs)|
    {
      id := |txs|;
      txs := txs + [StockTx(STOCK_IN, PENDING_CONFIRMATION, Some(batch), quantity, Some(booking))];
    }

    method ConfirmStockTransaction(id: nat) returns (r: Outcome)
      modifies this
      ensures (State(), r) == ConfirmStep(old(State()), id)
    {
      if id >= |txs| { return Refused(NotFound); }
      var tx := txs[id];
      if !tx.status.PENDING_CONFIRMATION? { return Refused(BadRequest); }
      if !tx.kind.STOCK_IN? { return Refused(BadRequest); }
      txs := txs[id := tx.(status := CONFIRMED)];
      if tx.batch.Some? {
        ReceiveBatch(id, tx.batch.value, tx.quantity);
      }
      r := Done;
    }

    method RejectStockTransaction(id: nat) returns (r: Outcome)
      modifies this
      ensures (State(), r) == RejectStep(old(State()), id)
    {
      if id >= |txs| { return Refused(NotFound); }
      if !txs[id].status.PENDING_CONFIRMATION? { return Refused(BadRequest); }
      txs := txs[id := txs[id].(status := REJECTED)];
      r := Done;
    }

    method CreateStockOut(batch: Option<string>, quantity: real, centerStock: real) returns (r: Outcome)
      modifies this
      ensures (State(), r) == StockOutStep(old(State()), batch, quantity, centerStock)
    {
      if centerStock < quantity { return Refused(BadRequest); }
      var id := |txs|;
      txs := txs + [StockTx(STOCK_OUT, PENDING_CONFIRMATION, batch, quantity, None)];
      if batch.Some? {
        if batch.value in items {
          var newQuantity := items[batch.value] - quantity;
          if newQuantity <= 0.0 {
            items := items - {batch.value};
          } else {
            items := items[batch.value := newQuantity];
          }
          log := log + [Released(id, batch.value, quantity)];
        }
      }
      r := Done;
    }

    /** The batch part of the status change to PROCESSING. */
    method DeductForOrder(order: nat, batch: string, quantity: real) returns (r: Outcome)
      modifies this
      ensures (State(), r) == DeductStep(old(State()), order, batch, quantity)
    {
      if batch in items {
        if quantity > items[batch] { return Refused(BadRequest); }
        var left := items[batch] - quantity;
        items := items[batch := if left > 0.0 then left else 0.0];
        log := log + [Processed(order, batch, quantity)];
      }
      r := Done;
    }
  }
}

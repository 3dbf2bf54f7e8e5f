/** Exactly when an order can leave a terminal status again. */
module Reopening {
  import opened Events
  import opened Idempotency
  import opened Saga
  import opened Guarantees
  import opened Lifecycle
  import H = OrderHistory
  import O = Orders
  import P = Payments
  import S = Stock

  /** The continuation gives the order another status. */
  ghost predicate Leaves(s: System, more: seq<Step>, order: nat) {
    var rows, rows' := s.orders.db.rows, Run(s, more).orders.db.rows;
    order < |rows| && (order >= |rows'| || rows'[order].status != rows[order].status)
  }

  ghost predicate CanLeave(s: System, order: nat) {
    exists more :: Leaves(s, more, order)
  }

  ghost predicate CanLeaveTrusting(s: System, order: nat) {
    exists more :: Trusting(more) && Leaves(s, more, order)
  }

  ghost predicate HasStatus(s: System, order: nat, status: O.OrderStatus) {
    order < |s.orders.db.rows| && s.orders.db.rows[order].status == status
  }

  // ------------------------------------------------ what keeps COMPLETED and FAILED

  ghost predicate Safe(s: System, order: nat, status: O.OrderStatus) {
    (status.Completed? || status.Failed?) && HasStatus(s, order, status) && !Refused(s, order)
  }

  lemma PaidOrderIsNotCharged(start: S.Product, s: System, m: Message, w: P.World)
    requires Inv(start, s) && Issued(s, m) && m.body.OrderCreated? && Paid(s, m.body.order) && !w.lookupFails
    ensures P.OnOrderCreated(s.payment.db, m.id, m.body.order, m.body.amount, s.next, w).db == s.payment.db
  {
    var i :| 0 <= i < |s.payment.db.rows| && s.payment.db.rows[i].order == m.body.order;
    PaidUnderItsKey(s.orders.db.outbox, s.inventory.db.outbox, s.payment.db, m.id, m.body.order, i, s.next);
  }

  lemma SafeWasPaid(start: S.Product, s: System, order: nat, status: O.OrderStatus)
    requires Inv(start, s) && Safe(s, order, status)
    ensures Paid(s, order)
  {
    assert Backed(s, order, status);
    StatusEvidence(start, s, order, status);
  }

  lemma ChargeOfPaid(start: S.Product, s: System, step: Step)
    requires Inv(start, s) && Charges(s, step) && Paid(s, s.log[step.at].body.order) && !step.world.lookupFails
    ensures Apply(s, step).payment.db == s.payment.db
  {
    assert Issued(s, s.log[step.at]);
    PaidOrderIsNotCharged(start, s, s.log[step.at], step.world);
  }

  lemma StaysUnrefused(start: S.Product, s: System, step: Step, order: nat)
    requires Inv(start, s) && Paid(s, order) && !Refused(s, order)
    requires step.ToPayment? ==> !step.world.lookupFails
    ensures !Refused(Apply(s, step), order)
  {
    if Charges(s, step) && s.log[step.at].body.order == order {
      ChargeOfPaid(start, s, step);
    } else {
      VerdictsOf(s, step, order);
    }
  }

  /** No issued message makes a handler write another status over a safe one. */
  lemma NothingOverwrites(start: S.Product, s: System, m: Message, order: nat, status: O.OrderStatus)
    requires Inv(start, s) && Safe(s, order, status) && Issued(s, m) && m.body.order == order
    ensures O.Target(m.body, status).Write? ==> O.Target(m.body, status).status == status
  {
    assert Backed(s, order, status);
    StatusEvidence(start, s, order, status);
    if O.Target(m.body, status).Write? {
      TargetBacked(start, s, m, status);
      StatusEvidence(start, s, order, O.Target(m.body, status).status);
    }
  }

  /** A status is only ever changed by the write of a handler that targets another one. */
  lemma StatusStays(s: System, step: Step, order: nat, status: O.OrderStatus)
    requires OrderStatusInv(s) && HasStatus(s, order, status)
    requires step.OrderWrite? && step.op < |s.inflight| && s.inflight[step.op].message.body.order == order ==>
      var body := s.inflight[step.op].message.body;
      O.Target(body, status).Write? ==> O.Target(body, status).status == status
    ensures HasStatus(Apply(s, step), order, status)
  {
    RowsAfter(s, step);
    if step.OrderWrite? && step.op < |s.inflight| {
      assert OpInv(s, s.inflight[step.op]);
      H.FinishRow(s.orders.db.rows, s.inflight[step.op], order);
    }
  }

  lemma SafeStep(start: S.Product, s: System, step: Step, order: nat, status: O.OrderStatus)
    requires Inv(start, s) && Safe(s, order, status)
    requires step.ToPayment? ==> !step.world.lookupFails
    ensures Safe(Apply(s, step), order, status)
  {
    SafeWasPaid(start, s, order, status);
    StaysUnrefused(start, s, step, order);
    if step.OrderWrite? && step.op < |s.inflight| && s.inflight[step.op].message.body.order == order {
      assert OpInv(s, s.inflight[step.op]);
      NothingOverwrites(start, s, s.inflight[step.op].message, order, status);
    }
    StatusStays(s, step, order, status);
  }

  lemma {:induction false} SafeContinues(start: S.Product, s: System, more: seq<Step>, order: nat,
                                         status: O.OrderStatus)
    requires Inv(start, s) && Safe(s, order, status) && Trusting(more)
    ensures Safe(Run(s, more), order, status)
    decreases |more|
  {
    if more != [] {
      var before := more[..|more| - 1];
      assert Trusting(before);
      SafeContinues(start, s, before, order, status);
      InvContinues(start, s, before);
      SafeStep(start, Run(s, before), more[|more| - 1], order, status);
    }
  }

  // ------------------------------------------------ what keeps CANCELED

  /** The order's stock can never be refused: it holds some, or its payment was never announced. */
  ghost predicate NeverFails(s: System, order: nat) {
    Reserved(s, order) || Unannounced(s.payment.db, order)
  }

  lemma ReservedStays(start: S.Product, s: System, step: Step, order: nat)
    requires Inv(start, s) && Reserved(s, order)
    ensures Reserved(Apply(s, step), order)
  {
    InvStep(start, s, step);
    ReservedHasEvent(start, s, order);
    HasGrows(s.inventory.db.outbox, Apply(s, step).inventory.db.outbox, StockReservedV1, order);
    ReservedEvent(start, Apply(s, step), order);
  }

  /** Charging never removes a payment, and announces one only together with a new row. */
  lemma ChargeOfUnannounced(p: P.Db, id: EventId, charged: nat, amount: int, uuid: EventId, w: P.World, order: nat)
    requires uuid !in p.outbox && HasPayment(p.rows, order) && !Has(p.outbox, PaymentCompletedV1, order)
    requires charged == order ==> P.HasKey(p.rows, Key(charged, id))
    ensures var p' := P.OnOrderCreated(p, id, charged, amount, uuid, w).db;
      HasPayment(p'.rows, order) && !Has(p'.outbox, PaymentCompletedV1, order)
  {
    var p' := P.OnOrderCreated(p, id, charged, amount, uuid, w).db;
    var i :| 0 <= i < |p.rows| && p.rows[i].order == order;
    PaymentFound(p'.rows, order, i);
    forall e | e in p'.outbox && TopicOf(p'.outbox[e]) == PaymentCompletedV1
      ensures p'.outbox[e].order != order
    {
      assert e != uuid ==> e in p.outbox && p.outbox[e] == p'.outbox[e];
    }
  }

  lemma RefundOfUnannounced(p: P.Db, failed: nat, uuid: EventId, fault: Fault, order: nat)
    requires uuid !in p.outbox && HasPayment(p.rows, order) && !Has(p.outbox, PaymentCompletedV1, order)
    ensures var p' := P.OnStockReservationFailed(p, failed, uuid, fault).db;
      HasPayment(p'.rows, order) && !Has(p'.outbox, PaymentCompletedV1, order)
  {
    var p' := P.OnStockReservationFailed(p, failed, uuid, fault).db;
    var i :| 0 <= i < |p.rows| && p.rows[i].order == order;
    PaymentFound(p'.rows, order, i);
    forall e | e in p'.outbox && TopicOf(p'.outbox[e]) == PaymentCompletedV1
      ensures p'.outbox[e].order != order
    {
      assert e != uuid ==> e in p.outbox && p.outbox[e] == p'.outbox[e];
    }
  }

  ghost predicate Unannounced(p: P.Db, order: nat) {
    HasPayment(p.rows, order) && !Has(p.outbox, PaymentCompletedV1, order)
  }

  lemma UnannouncedReceives(node: Node<P.Db>, m: Message, next: EventId, redis: Redis, w: P.World, order: nat)
    requires next !in node.db.outbox && Unannounced(node.db, order)
    requires m.body.OrderCreated? && m.body.order == order ==> P.HasKey(node.db.rows, Key(order, m.id))
    ensures Unannounced(P.Receive(node, m, next, redis, w).db, order)
  {
    match m.body {
      case OrderCreated(charged, amount, _) =>
        ChargeOfUnannounced(node.db, m.id, charged, amount, next, w, order);
      case StockReservationFailed(failed, _) => RefundOfUnannounced(node.db, failed, next, w.fault, order);
      case _ =>
    }
  }

  lemma UnannouncedDelivered(start: S.Product, s: System, m: Message, redis: Redis, w: P.World, order: nat)
    requires Inv(start, s) && Issued(s, m) && Unannounced(s.payment.db, order)
    ensures Unannounced(P.Receive(s.payment, m, s.next, redis, w).db, order)
  {
    if m.body.OrderCreated? && m.body.order == order {
      PaidKey(start, s, m);
    }
    UnannouncedReceives(s.payment, m, s.next, redis, w, order);
  }

  lemma UnannouncedStays(start: S.Product, s: System, step: Step, order: nat)
    requires Inv(start, s) && Unannounced(s.payment.db, order)
    ensures Unannounced(Apply(s, step).payment.db, order)
  {
    OnlyDeliveriesToPayment(s, step);
    if step.ToPayment? && step.at < |s.log| {
      LogIsIssued(start, s, step.at);
      UnannouncedDelivered(start, s, s.log[step.at], step.redis, step.world, order);
    }
  }

  lemma NeverFailsHasNotFailed(start: S.Product, s: System, order: nat)
    requires Inv(start, s) && NeverFails(s, order)
    ensures !Has(s.inventory.db.outbox, StockReservationFailedV1, order)
  {
    if Has(s.inventory.db.outbox, StockReservationFailedV1, order) {
      FailedOrderHoldsNothing(start, s, order);
    }
  }

  lemma NeverFailsStays(start: S.Product, s: System, step: Step, order: nat)
    requires Inv(start, s) && NeverFails(s, order)
    ensures NeverFails(Apply(s, step), order)
  {
    if Reserved(s, order) {
      ReservedStays(start, s, step, order);
    } else {
      UnannouncedStays(start, s, step, order);
    }
  }

  /** What is written to the CANCELED order is CANCELED. */
  lemma CanceledWrites(start: S.Product, s: System, op: O.Op)
    requires Inv(start, s) && op in s.inflight && NeverFails(s, op.message.body.order)
    ensures var wish := O.Target(op.message.body, O.Canceled);
      wish.Write? ==> wish.status.Canceled?
  {
    assert OpInv(s, op);
    NeverFailsHasNotFailed(start, s, op.message.body.order);
    if O.Target(op.message.body, O.Canceled).Write? {
      TargetBacked(start, s, op.message, O.Canceled);
    }
  }

  lemma CanceledStep(start: S.Product, s: System, step: Step, order: nat)
    requires Inv(start, s) && NeverFails(s, order) && HasStatus(s, order, O.Canceled)
    ensures NeverFails(Apply(s, step), order) && HasStatus(Apply(s, step), order, O.Canceled)
  {
    NeverFailsStays(start, s, step, order);
    if step.OrderWrite? && step.op < |s.inflight| && s.inflight[step.op].message.body.order == order {
      CanceledWrites(start, s, s.inflight[step.op]);
    }
    StatusStays(s, step, order, O.Canceled);
  }

  lemma {:induction false} CanceledContinues(start: S.Product, s: System, more: seq<Step>, order: nat)
    requires Inv(start, s) && NeverFails(s, order) && HasStatus(s, order, O.Canceled)
    ensures NeverFails(Run(s, more), order) && HasStatus(Run(s, more), order, O.Canceled)
    decreases |more|
  {
    if more != [] {
      var before := more[..|more| - 1];
      CanceledContinues(start, s, before, order);
      InvContinues(start, s, before);
      CanceledStep(start, Run(s, before), more[|more| - 1], order);
    }
  }

  // ------------------------------------------------ ways out

  lemma Run2(s: System, a: Step, b: Step)
    ensures Run(s, [a, b]) == Apply(Apply(s, a), b)
  {
    RunNext(s, [], a);
    RunNext(s, [a], b);
    assert [] + [a] == [a] && [a] + [b] == [a, b];
  }

  /** An event is published and handled once more: the order service writes its status over whatever is there. */
  lemma {:induction false} Overwrite(s: System, party: Party, id: EventId, status: O.OrderStatus)
    returns (more: seq<Step>)
    requires id in OutboxOf(s, party) && OutboxOf(s, party)[id].order < |s.orders.db.rows|
    requires O.Consumes(OutboxOf(s, party)[id])
    requires forall seen :: O.Target(OutboxOf(s, party)[id], seen) == O.Write(status)
    ensures Trusting(more) && HasStatus(Run(s, more), OutboxOf(s, party)[id].order, status)
  {
    var m := Message(id, OutboxOf(s, party)[id]);
    more := [Publish(party, id), OrderRead(|s.log|, true), OrderWrite(|s.inflight|, true)];
    Run2(s, more[0], more[1]);
    RunNext(s, more[..2], more[2]);
    assert more[..2] == [more[0], more[1]] && more[..2] + [more[2]] == more;
    var s1 := s.(log := s.log + [m]);
    assert Apply(s, more[0]) == s1;
    ReadsLate(s1, m);
    WritesLate(Apply(s1, more[1]), m, status);
  }

  lemma ReadsLate(s: System, m: Message)
    requires O.Consumes(m.body) && m.body.order < |s.orders.db.rows| && |s.log| > 0 && s.log[|s.log| - 1] == m
    ensures var row := s.orders.db.rows[m.body.order];
      Apply(s, OrderRead(|s.log| - 1, true)) == s.(inflight := s.inflight + [O.Op(m, row.status, row.version)])
  {
  }

  lemma WritesLate(s: System, m: Message, status: O.OrderStatus)
    requires m.body.order < |s.orders.db.rows| && |s.inflight| > 0
    requires var row := s.orders.db.rows[m.body.order];
      s.inflight[|s.inflight| - 1] == O.Op(m, row.status, row.version)
    requires forall seen :: O.Target(m.body, seen) == O.Write(status)
    ensures HasStatus(Apply(s, OrderWrite(|s.inflight| - 1, true)), m.body.order, status)
  {
  }

  /** The late cancellation. */
  lemma {:induction false} CancelLate(s: System, order: nat) returns (more: seq<Step>)
    requires Refused(s, order) && order < |s.orders.db.rows|
    ensures Trusting(more) && HasStatus(Run(s, more), order, O.Canceled)
  {
    var out := s.payment.db.outbox;
    var e :| e in out && TopicOf(out[e]) == PaymentFailedV1 && out[e].order == order;
    more := Overwrite(s, PaymentParty, e, O.Canceled);
  }

  /** The late failure. */
  lemma {:induction false} FailLate(s: System, order: nat) returns (more: seq<Step>)
    requires Has(s.inventory.db.outbox, StockReservationFailedV1, order) && order < |s.orders.db.rows|
    ensures Trusting(more) && HasStatus(Run(s, more), order, O.Failed)
  {
    var out := s.inventory.db.outbox;
    var e :| e in out && TopicOf(out[e]) == StockReservationFailedV1 && out[e].order == order;
    more := Overwrite(s, InventoryParty, e, O.Failed);
  }

  const DOWN := Redis(true, true)

  /** The order's order.created is published and handled once more, past the store. */
  lemma {:induction false} Charge(s: System, order: nat, w: P.World) returns (id: EventId, more: seq<Step>)
    requires OrdersInv(s.orders.db, s.next) && Has(s.orders.db.outbox, OrderCreatedV1, order)
    ensures id in s.orders.db.outbox && s.orders.db.outbox[id].OrderCreated? && s.orders.db.outbox[id].order == order
    ensures var t, amount := Run(s, more), s.orders.db.outbox[id].amount;
      && t.orders == s.orders && t.inventory == s.inventory
      && t.payment.db == P.OnOrderCreated(s.payment.db, id, order, amount, s.next, w).db
    ensures !w.lookupFails ==> Trusting(more)
  {
    var out := s.orders.db.outbox;
    id :| id in out && TopicOf(out[id]) == OrderCreatedV1 && out[id].order == order;
    more := [Publish(OrderParty, id), ToPayment(|s.log|, DOWN, w)];
    Run2(s, more[0], more[1]);
    assert Apply(s, more[0]) == s.(log := s.log + [Message(id, out[id])]);
  }

  /** Only these two tables were used on the way, and no event is withdrawn. */
  ghost predicate PaidMeanwhile(start: S.Product, s: System, t: System) {
    Inv(start, t) && OutboxesGrow(s, t) && t.orders == s.orders && t.inventory == s.inventory
  }

  /** An order that was not paid is charged at last. */
  lemma {:induction false} Pay(start: S.Product, s: System, order: nat) returns (more: seq<Step>)
    requires Inv(start, s) && Has(s.orders.db.outbox, OrderCreatedV1, order) && !Paid(s, order)
    ensures Trusting(more) && PaidMeanwhile(start, s, Run(s, more))
    ensures Has(Run(s, more).payment.db.outbox, PaymentCompletedV1, order)
  {
    var w := P.World(true, false, NoFault);
    var id: EventId;
    id, more := Charge(s, order, w);
    InvContinues(start, s, more);
    OrderOfKey(start, s, order, id);
    HasAdded(s.payment.db.outbox, s.next, PaymentCompleted(order, |s.payment.db.rows|, s.orders.db.outbox[id].amount));
  }

  /** A lookup that fails lets the gateway decline an order it already charged. */
  lemma {:induction false} DeclineAgain(start: S.Product, s: System, order: nat) returns (more: seq<Step>)
    requires Inv(start, s) && Has(s.orders.db.outbox, OrderCreatedV1, order)
    ensures Run(s, more).orders == s.orders && Refused(Run(s, more), order)
  {
    var w := P.World(false, true, NoFault);
    var id: EventId;
    id, more := Charge(s, order, w);
    HasAdded(s.payment.db.outbox, s.next, PaymentFailed(order));
  }

  /** The order's payment.completed is published and handled once more, past the store. */
  lemma {:induction false} Redeliver(s: System, order: nat) returns (id: EventId, more: seq<Step>)
    requires Has(s.payment.db.outbox, PaymentCompletedV1, order)
    ensures Trusting(more) && Run(s, more).orders == s.orders
    ensures Run(s, more).inventory.db == S.OnPaymentCompleted(s.inventory.db, id, order, s.next, NoFault).db
  {
    var out := s.payment.db.outbox;
    id :| id in out && TopicOf(out[id]) == PaymentCompletedV1 && out[id].order == order;
    more := [Publish(PaymentParty, id), ToInventory(|s.log|, DOWN, NoFault)];
    Run2(s, more[0], more[1]);
    assert Apply(s, more[0]) == s.(log := s.log + [Message(id, out[id])]);
  }

  /** An order without a reservation gets one, or is told that stock failed. */
  ghost predicate Attempted(st: S.Db, order: nat, st': S.Db) {
    if SoldOut(st.product) then Has(st'.outbox, StockReservationFailedV1, order)
    else
      && st'.product == S.Found(st.product.level.Take(S.UNIT))
      && |st'.reservations| == |st.reservations| + 1 && st'.reservations[..|st.reservations|] == st.reservations
      && st'.reservations[|st.reservations|].order == order
  }

  lemma {:induction false} TryReserve(start: S.Product, s: System, order: nat) returns (more: seq<Step>)
    requires Inv(start, s) && Has(s.payment.db.outbox, PaymentCompletedV1, order) && !Reserved(s, order)
    ensures Trusting(more) && Inv(start, Run(s, more)) && OutboxesGrow(s, Run(s, more))
    ensures Run(s, more).orders == s.orders && Attempted(s.inventory.db, order, Run(s, more).inventory.db)
  {
    var id: EventId;
    id, more := Redeliver(s, order);
    InvContinues(start, s, more);
    UnreservedKey(start, s, order, id);
    ReserveOutcome(s.inventory.db, id, order, s.next);
  }

  lemma UnreservedKey(start: S.Product, s: System, order: nat, id: EventId)
    requires Inv(start, s) && !Reserved(s, order)
    ensures !S.HasKey(s.inventory.db.reservations, Key(order, id))
  {
    var rows := s.inventory.db.reservations;
    forall i | 0 <= i < |rows|
      ensures rows[i].key != Key(order, id)
    {
      assert ReservationInv(s.payment.db.outbox, rows[i]);
    }
  }

  lemma ReserveOutcome(st: S.Db, id: EventId, order: nat, next: EventId)
    requires next !in st.outbox && !S.HasKey(st.reservations, Key(order, id))
    ensures Attempted(st, order, S.OnPaymentCompleted(st, id, order, next, NoFault).db)
  {
    var st' := S.OnPaymentCompleted(st, id, order, next, NoFault).db;
    if SoldOut(st.product) {
      HasAdded(st.outbox, next, st'.outbox[next]);
    }
  }

  // ------------------------------------------------ later orders can drain the stock

  function LongestKey(rows: seq<O.Row>): (n: nat)
    ensures forall i :: 0 <= i < |rows| ==> |rows[i].key| <= n
  {
    if rows == [] then 0
    else
      var n, last := LongestKey(rows[..|rows| - 1]), |rows[|rows| - 1].key|;
      if n < last then last else n
  }

  function FreshKey(rows: seq<O.Row>): (key: string)
    ensures key != "" && O.FindByKey(rows, key) < 0
  {
    seq(LongestKey(rows) + 1, _ => 'k')
  }

  /** What a detour for the sake of other orders leaves alone. */
  ghost predicate Detour(start: S.Product, s: System, t: System) {
    && Inv(start, t) && OutboxesGrow(s, t)
    && |s.orders.db.rows| <= |t.orders.db.rows|
    && (forall o :: 0 <= o < |s.orders.db.rows| ==> t.orders.db.rows[o] == s.orders.db.rows[o])
    && (forall o :: 0 <= o < |s.orders.db.rows| && Reserved(t, o) ==> Reserved(s, o))
  }

  lemma DetourTwice(start: S.Product, s: System, t: System, u: System)
    requires Detour(start, s, t) && Detour(start, t, u)
    ensures Detour(start, s, u)
  {
    OutboxesGrowTransitive(s, t, u);
  }

  lemma {:induction false} Chain(s: System, a: seq<Step>, b: seq<Step>)
    requires Trusting(a) && Trusting(b)
    ensures Trusting(a + b) && Run(s, a + b) == Run(Run(s, a), b)
  {
    RunConcat(s, a, b);
  }

  lemma FreshIsPlaced(start: S.Product, s: System, key: string)
    requires Inv(start, s) && O.FindByKey(s.orders.db.rows, key) < 0
    ensures var t := DoCreate(s, O.Command(1, 1, key), false, NoFault);
      && t.payment == s.payment && t.inventory == s.inventory
      && |t.orders.db.rows| == |s.orders.db.rows| + 1 && t.orders.db.rows[..|s.orders.db.rows|] == s.orders.db.rows
      && Has(t.orders.db.outbox, OrderCreatedV1, |s.orders.db.rows|)
  {
    HasAdded(s.orders.db.outbox, s.next, OrderCreated(|s.orders.db.rows|, 1, 1));
  }

  /** A new order is placed. */
  lemma {:induction false} PlaceOne(start: S.Product, s: System) returns (more: seq<Step>)
    requires Inv(start, s)
    ensures Trusting(more) && Inv(start, Run(s, more)) && OutboxesGrow(s, Run(s, more))
    ensures var t := Run(s, more);
      && t.payment == s.payment && t.inventory == s.inventory
      && |t.orders.db.rows| == |s.orders.db.rows| + 1 && t.orders.db.rows[..|s.orders.db.rows|] == s.orders.db.rows
      && Has(t.orders.db.outbox, OrderCreatedV1, |s.orders.db.rows|)
  {
    var key := FreshKey(s.orders.db.rows);
    more := [Create(O.Command(1, 1, key), false, NoFault)];
    RunNext(s, [], more[0]);
    assert [] + [more[0]] == more;
    InvContinues(start, s, more);
    FreshIsPlaced(start, s, key);
  }

  lemma PaidIsKnown(start: S.Product, s: System, order: nat)
    requires Inv(start, s) && Paid(s, order)
    ensures order < |s.orders.db.rows|
  {
    var i :| 0 <= i < |s.payment.db.rows| && s.payment.db.rows[i].order == order;
    assert PaymentRowInv(s.orders.db.outbox, s.inventory.db.outbox, s.payment.db.rows[i]);
    assert CreatedInv(s.orders.db.rows, s.orders.db.outbox[s.payment.db.rows[i].key.event]);
  }

  lemma NewOrderIsUnpaid(start: S.Product, s: System, order: nat)
    requires Inv(start, s) && |s.orders.db.rows| <= order
    ensures !Paid(s, order) && !Reserved(s, order)
  {
    if Paid(s, order) {
      PaidIsKnown(start, s, order);
    }
    if Reserved(s, order) {
      ReservedWasPaid(start, s, order);
    }
  }

  lemma UnpaidInSameTables(s: System, t: System, order: nat)
    requires t.payment == s.payment && t.inventory == s.inventory
    ensures Paid(t, order) <==> Paid(s, order)
    ensures Reserved(t, order) <==> Reserved(s, order)
  {
  }

  lemma ReservedMeanwhile(s: System, t: System, order: nat)
    requires var st, st' := s.inventory.db.reservations, t.inventory.db.reservations;
      |st'| == |st| + 1 && st'[..|st|] == st && st'[|st|].order == order
    ensures forall o :: o != order && Reserved(t, o) ==> Reserved(s, o)
  {
    forall o | o != order && Reserved(t, o)
      ensures Reserved(s, o)
    {
      var i :| 0 <= i < |t.inventory.db.reservations| && t.inventory.db.reservations[i].order == o;
      assert t.inventory.db.reservations[..|s.inventory.db.reservations|][i].order == o;
    }
  }

  /** A new order takes one unit. */
  lemma {:induction false} SellOne(start: S.Product, s: System) returns (more: seq<Step>)
    requires Inv(start, s) && !SoldOut(s.inventory.db.product)
    ensures Trusting(more) && Detour(start, s, Run(s, more))
    ensures Run(s, more).inventory.db.product == S.Found(s.inventory.db.product.level.Take(S.UNIT))
  {
    var order := |s.orders.db.rows|;
    NewOrderIsUnpaid(start, s, order);
    var a := PlaceOne(start, s);
    var t := Run(s, a);
    UnpaidInSameTables(s, t, order);
    var b := Pay(start, t, order);
    var u := Run(t, b);
    var c := TryReserve(start, u, order);
    var v := Run(u, c);
    Chain(s, a, b);
    Chain(s, a + b, c);
    more := a + b + c;
    SoldOne(start, s, t, u, v);
  }

  lemma SoldOne(start: S.Product, s: System, t: System, u: System, v: System)
    requires OutboxesGrow(s, t) && |t.orders.db.rows| == |s.orders.db.rows| + 1
    requires t.orders.db.rows[..|s.orders.db.rows|] == s.orders.db.rows
    requires t.inventory == s.inventory && PaidMeanwhile(start, t, u)
    requires Inv(start, v) && OutboxesGrow(u, v) && v.orders == u.orders
    requires var st, st' := u.inventory.db.reservations, v.inventory.db.reservations;
      |st'| == |st| + 1 && st'[..|st|] == st && st'[|st|].order == |s.orders.db.rows|
    ensures Detour(start, s, v)
  {
    OutboxesGrowTransitive(s, t, u);
    OutboxesGrowTransitive(s, u, v);
    forall o | 0 <= o < |s.orders.db.rows|
      ensures v.orders.db.rows[o] == s.orders.db.rows[o]
    {
      assert t.orders.db.rows[..|s.orders.db.rows|][o] == s.orders.db.rows[o];
    }
    ReservedMeanwhile(u, v, |s.orders.db.rows|);
    assert forall o :: Reserved(u, o) ==> Reserved(s, o);
  }

  lemma {:induction false} SellOut(start: S.Product, s: System, left: nat) returns (more: seq<Step>)
    requires Inv(start, s)
    requires s.inventory.db.product.Found? ==> s.inventory.db.product.level.available <= left
    ensures Trusting(more) && Detour(start, s, Run(s, more)) && SoldOut(Run(s, more).inventory.db.product)
    decreases left
  {
    if SoldOut(s.inventory.db.product) {
      more := [];
    } else {
      var one := SellOne(start, s);
      var rest := SellOut(start, Run(s, one), left - 1);
      Chain(s, one, rest);
      DetourTwice(start, s, Run(s, one), Run(Run(s, one), rest));
      more := one + rest;
    }
  }

  /** A paid order that holds no stock can be told that stock failed. */
  lemma {:induction false} FailPaid(start: S.Product, s: System, order: nat) returns (more: seq<Step>)
    requires Inv(start, s) && order < |s.orders.db.rows|
    requires Has(s.payment.db.outbox, PaymentCompletedV1, order) && !Reserved(s, order)
    ensures Trusting(more) && HasStatus(Run(s, more), order, O.Failed)
  {
    var left: nat := if s.inventory.db.product.Found? && s.inventory.db.product.level.available > 0
    then s.inventory.db.product.level.available else 0;
    var a := SellOut(start, s, left);
    var t := Run(s, a);
    HasGrows(s.payment.db.outbox, t.payment.db.outbox, PaymentCompletedV1, order);
    var b := TryReserve(start, t, order);
    var c := FailLate(Run(t, b), order);
    Chain(s, a, b);
    Chain(s, a + b, c);
    more := a + b + c;
  }

  lemma RefusedWasCreated(start: S.Product, s: System, order: nat)
    requires Inv(start, s) && Refused(s, order)
    ensures Has(s.orders.db.outbox, OrderCreatedV1, order)
  {
    var out := s.payment.db.outbox;
    var e :| e in out && TopicOf(out[e]) == PaymentFailedV1 && out[e].order == order;
    assert PaymentEventInv(s.orders.db.outbox, s.payment.db.rows, out[e]);
  }

  /** A CANCELED order that can still be paid, or was, and holds no stock can become FAILED. */
  lemma {:induction false} FailCanceled(start: S.Product, s: System, order: nat) returns (more: seq<Step>)
    requires Inv(start, s) && HasStatus(s, order, O.Canceled) && !NeverFails(s, order)
    ensures Trusting(more) && HasStatus(Run(s, more), order, O.Failed)
  {
    if Has(s.payment.db.outbox, PaymentCompletedV1, order) {
      more := FailPaid(start, s, order);
    } else {
      assert Backed(s, order, O.Canceled);
      RefusedWasCreated(start, s, order);
      var a := Pay(start, s, order);
      var b := FailPaid(start, Run(s, a), order);
      Chain(s, a, b);
      more := a + b;
    }
  }

  lemma PaidWasCreated(start: S.Product, s: System, order: nat)
    requires Inv(start, s) && Paid(s, order)
    ensures Has(s.orders.db.outbox, OrderCreatedV1, order)
  {
    var i :| 0 <= i < |s.payment.db.rows| && s.payment.db.rows[i].order == order;
    assert PaymentRowInv(s.orders.db.outbox, s.inventory.db.outbox, s.payment.db.rows[i]);
  }

  lemma SettledWasCreated(start: S.Product, s: System, order: nat, status: O.OrderStatus)
    requires Inv(start, s) && HasStatus(s, order, status) && (status.Completed? || status.Failed?)
    ensures Has(s.orders.db.outbox, OrderCreatedV1, order)
  {
    assert Backed(s, order, status);
    StatusEvidence(start, s, order, status);
    PaidWasCreated(start, s, order);
  }

  // ------------------------------------------------ the exact conditions

  /**
   As long as payment lookups answer, a COMPLETED or FAILED order can leave its status exactly when a
   payment.failed event was once recorded for it.
   */
  lemma {:induction false} SettledReopensIff(start: S.Product, s: System, order: nat, status: O.OrderStatus)
    requires Inv(start, s) && HasStatus(s, order, status) && (status.Completed? || status.Failed?)
    ensures CanLeaveTrusting(s, order) <==> Refused(s, order)
  {
    if Refused(s, order) {
      var more := CancelLate(s, order);
      assert Trusting(more) && Leaves(s, more, order);
    } else {
      forall more | Trusting(more)
        ensures !Leaves(s, more, order)
      {
        SafeContinues(start, s, more, order, status);
      }
    }
  }

  lemma {:induction false} CompletedReopensIff(start: S.Product, steps: seq<Step>, order: nat)
    requires ValidStart(start) && HasStatus(Run(Init(start), steps), order, O.Completed)
    ensures CanLeaveTrusting(Run(Init(start), steps), order) <==> Refused(Run(Init(start), steps), order)
  {
    InvRun(start, steps);
    SettledReopensIff(start, Run(Init(start), steps), order, O.Completed);
  }

  lemma {:induction false} FailedReopensIff(start: S.Product, steps: seq<Step>, order: nat)
    requires ValidStart(start) && HasStatus(Run(Init(start), steps), order, O.Failed)
    ensures CanLeaveTrusting(Run(Init(start), steps), order) <==> Refused(Run(Init(start), steps), order)
  {
    InvRun(start, steps);
    SettledReopensIff(start, Run(Init(start), steps), order, O.Failed);
  }

  /** The gateway declines the order once more, and the refusal cancels it. */
  lemma {:induction false} CancelSettled(start: S.Product, s: System, order: nat, status: O.OrderStatus)
    returns (more: seq<Step>)
    requires Inv(start, s) && HasStatus(s, order, status) && (status.Completed? || status.Failed?)
    ensures HasStatus(Run(s, more), order, O.Canceled)
  {
    SettledWasCreated(start, s, order, status);
    var a := DeclineAgain(start, s, order);
    var b := CancelLate(Run(s, a), order);
    RunConcat(s, a, b);
    more := a + b;
  }

  /** Once a lookup may fail, every COMPLETED or FAILED order can be made CANCELED. */
  lemma {:induction false} FailedLookupReopens(start: S.Product, steps: seq<Step>, order: nat, status: O.OrderStatus)
    requires ValidStart(start) && HasStatus(Run(Init(start), steps), order, status)
    requires status.Completed? || status.Failed?
    ensures exists more :: HasStatus(Run(Run(Init(start), steps), more), order, O.Canceled)
  {
    InvRun(start, steps);
    var more := CancelSettled(start, Run(Init(start), steps), order, status);
  }

  /**
   A CANCELED order can leave its status exactly when it holds no stock and was either announced as
   paid or not paid at all. Lookups make no difference: later orders can always drain the stock.
   */
  lemma {:induction false} CanceledReopensIff(start: S.Product, steps: seq<Step>, order: nat)
    requires ValidStart(start) && HasStatus(Run(Init(start), steps), order, O.Canceled)
    ensures var s := Run(Init(start), steps);
      var open := !Reserved(s, order) && (Has(s.payment.db.outbox, PaymentCompletedV1, order) || !Paid(s, order));
      && (CanLeaveTrusting(s, order) <==> open)
      && (CanLeave(s, order) <==> open)
  {
    var s := Run(Init(start), steps);
    InvRun(start, steps);
    if NeverFails(s, order) {
      forall more
        ensures !Leaves(s, more, order)
      {
        CanceledContinues(start, s, more, order);
      }
    } else {
      var more := FailCanceled(start, s, order);
      assert Trusting(more) && Leaves(s, more, order);
    }
  }
}

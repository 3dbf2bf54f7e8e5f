/** Rows and events of the two services that write rows outside the transaction of the event. */
module Recording {
  import opened Events
  import opened Idempotency
  import opened Saga
  import O = Orders
  import P = Payments
  import S = Stock

  /** Every order row has its event: nothing was cut off between the two. */
  ghost predicate OrdersAnnounced(db: O.Db) {
    forall o :: 0 <= o < |db.rows| ==> Has(db.outbox, OrderCreatedV1, o)
  }

  /** Every payment row has its events. */
  ghost predicate PaymentsAnnounced(db: P.Db) {
    forall i :: 0 <= i < |db.rows| ==> PaymentAnnounced(db.outbox, db.rows[i])
  }

  ghost predicate PaymentAnnounced(outbox: Outbox, r: P.Row) {
    Has(outbox, PaymentCompletedV1, r.order) && (r.status.Refunded? ==> Has(outbox, PaymentRefundedV1, r.order))
  }

  lemma OrderAnnounced(db: O.Db, row: O.Row, next: EventId)
    requires OrdersAnnounced(db) && next !in db.outbox
    ensures OrdersAnnounced(O.Db(db.rows + [row], db.outbox[next := OrderCreated(|db.rows|, row.amount, row.quantity)]))
  {
    var body := OrderCreated(|db.rows|, row.amount, row.quantity);
    var outbox := db.outbox[next := body];
    HasAdded(db.outbox, next, body);
    forall o | 0 <= o < |db.rows|
      ensures Has(outbox, OrderCreatedV1, o)
    {
      HasGrows(db.outbox, outbox, OrderCreatedV1, o);
    }
  }

  lemma PaymentAnnouncedGrows(outbox: Outbox, id: EventId, body: Event, r: P.Row)
    requires id !in outbox && PaymentAnnounced(outbox, r)
    ensures PaymentAnnounced(outbox[id := body], r)
  {
    HasAdded(outbox, id, body);
    HasGrows(outbox, outbox[id := body], PaymentCompletedV1, r.order);
    if r.status.Refunded? {
      HasGrows(outbox, outbox[id := body], PaymentRefundedV1, r.order);
    }
  }

  lemma PaymentsAnnouncedGrow(db: P.Db, id: EventId, body: Event)
    requires id !in db.outbox && PaymentsAnnounced(db)
    ensures PaymentsAnnounced(db.(outbox := db.outbox[id := body]))
  {
    forall i | 0 <= i < |db.rows|
      ensures PaymentAnnounced(db.outbox[id := body], db.rows[i])
    {
      PaymentAnnouncedGrows(db.outbox, id, body, db.rows[i]);
    }
  }

  // ------------------------------------------------ which steps lose an event

  /** A valid command under an unused key is executed, and cut off between its row and its commit. */
  predicate LosesOrderEvent(s: System, step: Step) {
    && step.Create? && !Commits(step.fault)
    && step.cmd.amount > 0 && step.cmd.quantity > 0 && O.FindByKey(s.orders.db.rows, step.cmd.key) < 0
  }

  /** The message makes the payment service charge an order it has no row for, or refund one that is not REFUNDED. */
  predicate WritesPayment(p: P.Db, m: Message, approve: bool) {
    match m.body
    case OrderCreated(order, _, _) => approve && !P.HasKey(p.rows, Key(order, m.id))
    case StockReservationFailed(order, _) =>
      var i := P.FindByOrder(p.rows, order);
      i >= 0 && !p.rows[i].status.Refunded?
    case _ => false
  }

  /** A charge or refund is executed, and cut off between its row and its commit. */
  predicate LosesPaymentEvent(s: System, step: Step) {
    && step.ToPayment? && step.at < |s.log| && !Commits(step.world.fault)
    && (step.redis.checkFails || s.log[step.at].id !in s.payment.done)
    && WritesPayment(s.payment.db, s.log[step.at], step.world.approve)
  }

  /** An event of another order or topic makes no difference. */
  lemma HasUntouched(outbox: Outbox, id: EventId, body: Event, topic: Topic, order: nat)
    requires id !in outbox && !(TopicOf(body) == topic && body.order == order)
    ensures Has(outbox[id := body], topic, order) <==> Has(outbox, topic, order)
  {
    if Has(outbox, topic, order) {
      HasAdded(outbox, id, body);
      HasGrows(outbox, outbox[id := body], topic, order);
    }
    var outbox' := outbox[id := body];
    if Has(outbox', topic, order) {
      var e :| e in outbox' && TopicOf(outbox'[e]) == topic && outbox'[e].order == order;
      assert e in outbox && outbox[e] == outbox'[e];
    }
  }

  lemma StoredWithEventIff(db: O.Db, row: O.Row, next: EventId)
    requires next !in db.outbox
    ensures var body := OrderCreated(|db.rows|, row.amount, row.quantity);
      OrdersAnnounced(O.Db(db.rows + [row], db.outbox[next := body])) <==> OrdersAnnounced(db)
  {
    var body := OrderCreated(|db.rows|, row.amount, row.quantity);
    var db' := O.Db(db.rows + [row], db.outbox[next := body]);
    if OrdersAnnounced(db) {
      OrderAnnounced(db, row, next);
    }
    if OrdersAnnounced(db') {
      forall o: nat | o < |db.rows|
        ensures Has(db.outbox, OrderCreatedV1, o)
      {
        assert Has(db'.outbox, OrderCreatedV1, o);
        HasUntouched(db.outbox, next, body, OrderCreatedV1, o);
      }
    }
  }

  lemma StoredWithoutEvent(db: O.Db, row: O.Row)
    requires forall e :: e in db.outbox ==> db.outbox[e].order < |db.rows|
    ensures !OrdersAnnounced(db.(rows := db.rows + [row]))
  {
    assert !Has(db.outbox, OrderCreatedV1, |db.rows|);
    assert |db.rows| < |db.rows + [row]|;
  }

  lemma CreateRecordsIff(db: O.Db, cmd: O.Command, next: EventId, lookupFails: bool, fault: Fault)
    requires next !in db.outbox && forall e :: e in db.outbox ==> db.outbox[e].order < |db.rows|
    ensures OrdersAnnounced(O.OnCreate(db, cmd, next, lookupFails, fault).db) <==>
            OrdersAnnounced(db) &&
            (Commits(fault) || cmd.amount <= 0 || cmd.quantity <= 0 || O.FindByKey(db.rows, cmd.key) >= 0)
  {
    var row := O.Row(cmd.amount, cmd.quantity, O.Pending, 0, cmd.key);
    StoredWithEventIff(db, row, next);
    StoredWithoutEvent(db, row);
  }

  lemma SameOrdersAnnounced(db: O.Db, db': O.Db)
    requires db'.outbox == db.outbox && |db'.rows| == |db.rows|
    ensures OrdersAnnounced(db') <==> OrdersAnnounced(db)
  {
  }

  lemma OnlyCreateStores(s: System, step: Step)
    requires !step.Create?
    ensures var s' := Apply(s, step);
      s'.orders.db.outbox == s.orders.db.outbox && |s'.orders.db.rows| == |s.orders.db.rows|
  {
  }

  lemma EventsOfKnownOrders(o: O.Db, next: EventId)
    requires OrdersInv(o, next)
    ensures next !in o.outbox && forall e :: e in o.outbox ==> o.outbox[e].order < |o.rows|
  {
    forall e | e in o.outbox
      ensures o.outbox[e].order < |o.rows|
    {
      assert CreatedInv(o.rows, o.outbox[e]);
    }
  }

  lemma OrdersStepIff(s: System, step: Step)
    requires OrdersInv(s.orders.db, s.next)
    ensures OrdersAnnounced(Apply(s, step).orders.db) <==> OrdersAnnounced(s.orders.db) && !LosesOrderEvent(s, step)
  {
    EventsOfKnownOrders(s.orders.db, s.next);
    if step.Create? {
      CreateRecordsIff(s.orders.db, step.cmd, s.next, step.lookupFails, step.fault);
    } else {
      OnlyCreateStores(s, step);
      SameOrdersAnnounced(s.orders.db, Apply(s, step).orders.db);
    }
  }

  // ------------------------------------------------ the same for payments

  /** What the table and the outbox of the payment service always agree on. */
  ghost predicate PaymentEventsSound(p: P.Db) {
    && (forall i, j :: 0 <= i < j < |p.rows| ==> p.rows[i].order != p.rows[j].order)
    && (forall i :: 0 <= i < |p.rows| ==> p.rows[i].key.order == p.rows[i].order)
    && (forall o :: Has(p.outbox, PaymentCompletedV1, o) ==> exists i :: 0 <= i < |p.rows| && p.rows[i].order == o)
    && (forall o :: Has(p.outbox, PaymentRefundedV1, o) ==>
          exists i :: 0 <= i < |p.rows| && p.rows[i].order == o && p.rows[i].status.Refunded?)
  }

  lemma PaymentTablesSound(created: Outbox, stock: Outbox, p: P.Db, next: EventId)
    requires PaymentInv(created, stock, p, next)
    ensures PaymentEventsSound(p)
  {
    forall i | 0 <= i < |p.rows|
      ensures p.rows[i].key.order == p.rows[i].order
    {
      assert PaymentRowInv(created, stock, p.rows[i]);
    }
    forall o | Has(p.outbox, PaymentCompletedV1, o)
      ensures exists i :: 0 <= i < |p.rows| && p.rows[i].order == o
    {
      var e :| e in p.outbox && TopicOf(p.outbox[e]) == PaymentCompletedV1 && p.outbox[e].order == o;
      assert PaymentEventInv(created, p.rows, p.outbox[e]);
    }
    forall o | Has(p.outbox, PaymentRefundedV1, o)
      ensures exists i :: 0 <= i < |p.rows| && p.rows[i].order == o && p.rows[i].status.Refunded?
    {
      var e :| e in p.outbox && TopicOf(p.outbox[e]) == PaymentRefundedV1 && p.outbox[e].order == o;
      assert PaymentEventInv(created, p.rows, p.outbox[e]);
    }
  }

  /** Rows the step does not touch stay as well or badly recorded as they were. */
  lemma RowUntouched(outbox: Outbox, id: EventId, body: Event, r: P.Row)
    requires id !in outbox && (body.order != r.order || body.PaymentFailed?)
    ensures PaymentAnnounced(outbox[id := body], r) <==> PaymentAnnounced(outbox, r)
  {
    HasUntouched(outbox, id, body, PaymentCompletedV1, r.order);
    HasUntouched(outbox, id, body, PaymentRefundedV1, r.order);
  }

  lemma DeclineRecordsIff(p: P.Db, next: EventId, order: nat)
    requires next !in p.outbox
    ensures PaymentsAnnounced(p.(outbox := p.outbox[next := PaymentFailed(order)])) <==> PaymentsAnnounced(p)
  {
    var p' := p.(outbox := p.outbox[next := PaymentFailed(order)]);
    forall i | 0 <= i < |p.rows|
      ensures PaymentAnnounced(p'.outbox, p.rows[i]) <==> PaymentAnnounced(p.outbox, p.rows[i])
    {
      RowUntouched(p.outbox, next, PaymentFailed(order), p.rows[i]);
    }
  }

  lemma PaidWithEventIff(p: P.Db, row: P.Row, next: EventId, body: Event)
    requires next !in p.outbox && body.PaymentCompleted? && body.order == row.order && row.status.Completed?
    requires forall i :: 0 <= i < |p.rows| ==> p.rows[i].order != row.order
    ensures PaymentsAnnounced(p.(rows := p.rows + [row], outbox := p.outbox[next := body])) <==> PaymentsAnnounced(p)
  {
    var p' := p.(rows := p.rows + [row], outbox := p.outbox[next := body]);
    HasAdded(p.outbox, next, body);
    assert PaymentAnnounced(p'.outbox, row);
    forall i | 0 <= i < |p.rows|
      ensures PaymentAnnounced(p'.outbox, p'.rows[i]) <==> PaymentAnnounced(p.outbox, p.rows[i])
    {
      RowUntouched(p.outbox, next, body, p.rows[i]);
    }
  }

  lemma PaidWithoutEvent(p: P.Db, row: P.Row, p': P.Db)
    requires PaymentEventsSound(p) && p'.rows == p.rows + [row] && p'.outbox == p.outbox
    requires forall i :: 0 <= i < |p.rows| ==> p.rows[i].order != row.order
    ensures !PaymentsAnnounced(p')
  {
    assert p'.rows[|p.rows|] == row;
    assert !PaymentAnnounced(p'.outbox, row);
  }

  lemma ChargeRecordsIff(p: P.Db, id: EventId, order: nat, amount: int, next: EventId, w: P.World)
    requires PaymentEventsSound(p) && next !in p.outbox
    requires (exists i :: 0 <= i < |p.rows| && p.rows[i].order == order) ==> P.HasKey(p.rows, Key(order, id))
    ensures PaymentsAnnounced(P.OnOrderCreated(p, id, order, amount, next, w).db) <==>
            PaymentsAnnounced(p) && (Commits(w.fault) || !w.approve || P.HasKey(p.rows, Key(order, id)))
  {
    var p' := P.OnOrderCreated(p, id, order, amount, next, w).db;
    var row := P.Row(order, amount, P.Completed, Key(order, id));
    if p'.rows == p.rows + [row] {
      assert |p'.rows| != |p.rows|;
      if Commits(w.fault) {
        PaidWithEventIff(p, row, next, PaymentCompleted(order, |p.rows|, amount));
      } else {
        PaidWithoutEvent(p, row, p');
      }
    } else {
      DeclineRecordsIff(p, next, order);
    }
  }

  function WithRefund(p: P.Db, i: nat, next: EventId): P.Db
    requires i < |p.rows|
  {
    var r := p.rows[i];
    p.(rows := p.rows[i := r.(status := P.Refunded)], outbox := p.outbox[next := PaymentRefunded(r.order, i, r.amount)])
  }

  lemma RefundWithEventIff(p: P.Db, i: nat, next: EventId)
    requires PaymentEventsSound(p) && next !in p.outbox && i < |p.rows| && !p.rows[i].status.Refunded?
    ensures PaymentsAnnounced(WithRefund(p, i, next)) <==> PaymentsAnnounced(p)
  {
    var r := p.rows[i];
    var body := PaymentRefunded(r.order, i, r.amount);
    var rows, outbox := p.rows[i := r.(status := P.Refunded)], p.outbox[next := body];
    HasAdded(p.outbox, next, body);
    forall j | 0 <= j < |p.rows|
      ensures PaymentAnnounced(outbox, rows[j]) <==> PaymentAnnounced(p.outbox, p.rows[j])
    {
      if j == i {
        HasUntouched(p.outbox, next, body, PaymentCompletedV1, r.order);
      } else {
        RowUntouched(p.outbox, next, body, p.rows[j]);
      }
    }
  }

  lemma RefundWithoutEvent(p: P.Db, i: nat, p': P.Db)
    requires PaymentEventsSound(p) && i < |p.rows| && !p.rows[i].status.Refunded?
    requires p'.outbox == p.outbox && p'.rows == p.rows[i := p.rows[i].(status := P.Refunded)]
    ensures !PaymentsAnnounced(p')
  {
    assert !PaymentAnnounced(p'.outbox, p'.rows[i]);
  }

  lemma RefundRecordsIff(p: P.Db, order: nat, next: EventId, fault: Fault)
    requires PaymentEventsSound(p) && next !in p.outbox
    ensures var i := P.FindByOrder(p.rows, order);
      PaymentsAnnounced(P.OnStockReservationFailed(p, order, next, fault).db) <==>
      PaymentsAnnounced(p) && (Commits(fault) || i < 0 || p.rows[i].status.Refunded?)
  {
    var p' := P.OnStockReservationFailed(p, order, next, fault).db;
    var i := P.FindByOrder(p.rows, order);
    if i >= 0 && !p.rows[i].status.Refunded? && p'.rows == p.rows[i := p.rows[i].(status := P.Refunded)] {
      assert p'.rows[i] != p.rows[i];
      if Commits(fault) {
        RefundWithEventIff(p, i, next);
      } else {
        RefundWithoutEvent(p, i, p');
      }
    }
  }

  lemma PaidHasKey(created: Outbox, stock: Outbox, p: P.Db, id: EventId, order: nat, next: EventId)
    requires PaymentInv(created, stock, p, next) && AtMostOne(created, OrderCreatedV1)
    requires id in created && created[id].OrderCreated? && created[id].order == order
    ensures (exists i :: 0 <= i < |p.rows| && p.rows[i].order == order) ==> P.HasKey(p.rows, Key(order, id))
  {
    if i: nat :| i < |p.rows| && p.rows[i].order == order {
      PaidUnderItsKey(created, stock, p, id, order, i, next);
    }
  }

  lemma PaymentHandledRecordsIff(created: Outbox, stock: Outbox, p: P.Db, m: Message, next: EventId, w: P.World)
    requires PaymentInv(created, stock, p, next) && AtMostOne(created, OrderCreatedV1) && P.Consumes(m.body)
    requires m.body.OrderCreated? ==> m.id in created && created[m.id] == m.body
    ensures PaymentsAnnounced(P.Handle(p, m, next, w).db) <==>
            PaymentsAnnounced(p) && (Commits(w.fault) || !WritesPayment(p, m, w.approve))
  {
    PaymentTablesSound(created, stock, p, next);
    match m.body {
      case OrderCreated(order, amount, _) =>
        PaidHasKey(created, stock, p, m.id, order, next);
        ChargeRecordsIff(p, m.id, order, amount, next, w);
      case StockReservationFailed(order, _) => RefundRecordsIff(p, order, next, w.fault);
    }
  }

  lemma PaymentNodeRecordsIff(created: Outbox, stock: Outbox, node: Node<P.Db>, m: Message, next: EventId, redis: Redis,
                              w: P.World)
    requires PaymentInv(created, stock, node.db, next) && AtMostOne(created, OrderCreatedV1)
    requires m.body.OrderCreated? ==> m.id in created && created[m.id] == m.body
    ensures PaymentsAnnounced(P.Receive(node, m, next, redis, w).db) <==>
            PaymentsAnnounced(node.db) &&
            !(!Commits(w.fault) && (redis.checkFails || m.id !in node.done) && WritesPayment(node.db, m, w.approve))
  {
    if P.Consumes(m.body) {
      PaymentHandledRecordsIff(created, stock, node.db, m, next, w);
    }
  }

  lemma PaymentsStepIff(start: S.Product, s: System, step: Step)
    requires Inv(start, s)
    ensures PaymentsAnnounced(Apply(s, step).payment.db) <==>
            PaymentsAnnounced(s.payment.db) && !LosesPaymentEvent(s, step)
  {
    OnlyDeliveriesToPayment(s, step);
    if step.ToPayment? && step.at < |s.log| {
      assert Issued(s, s.log[step.at]);
      PaymentNodeRecordsIff(s.orders.db.outbox, s.inventory.db.outbox, s.payment, s.log[step.at], s.next, step.redis,
                            step.world);
    }
  }

  // ------------------------------------------------ over whole runs

  /** No step of the run stores an order and loses its event. */
  predicate OrderEventsKept(start: S.Product, steps: seq<Step>)
    decreases |steps|
  {
    steps == [] ||
    var before := steps[..|steps| - 1];
    OrderEventsKept(start, before) && !LosesOrderEvent(Run(Init(start), before), steps[|steps| - 1])
  }

  /** No step of the run stores or refunds a payment and loses its event. */
  predicate PaymentEventsKept(start: S.Product, steps: seq<Step>)
    decreases |steps|
  {
    steps == [] ||
    var before := steps[..|steps| - 1];
    PaymentEventsKept(start, before) && !LosesPaymentEvent(Run(Init(start), before), steps[|steps| - 1])
  }

  /**
   Orders and payments are written outside the transaction that carries the event. At the end of a run
   every order has its order.created event if and only if no valid command under an unused key was cut
   between its row and its commit; and every payment has its payment.completed event, and its
   payment.refunded event if it is REFUNDED, if and only if no charge of an order without a row and no
   refund of a payment not yet REFUNDED was cut between its row and its commit.
   */
  lemma {:induction false} RowsRecordedIff(start: S.Product, steps: seq<Step>)
    requires ValidStart(start)
    ensures OrdersAnnounced(Run(Init(start), steps).orders.db) <==> OrderEventsKept(start, steps)
    ensures PaymentsAnnounced(Run(Init(start), steps).payment.db) <==> PaymentEventsKept(start, steps)
    decreases |steps|
  {
    if steps != [] {
      var before := steps[..|steps| - 1];
      RowsRecordedIff(start, before);
      InvRun(start, before);
      OrdersStepIff(Run(Init(start), before), steps[|steps| - 1]);
      PaymentsStepIff(start, Run(Init(start), before), steps[|steps| - 1]);
    }
  }
}

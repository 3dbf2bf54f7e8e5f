/** A concrete run in which an order is COMPLETED, with its payment, reservation and delivery, and then CANCELED. */
module LateCancel {
  import opened Events
  import opened Idempotency
  import opened Saga
  import opened Guarantees
  import opened Lifecycle
  import O = Orders
  import P = Payments
  import S = Stock
  import D = Deliveries

  const UP := Redis(false, false)
  const ONE_UNIT := S.Found(S.Level(1, 0, 0))

  function Row(status: O.OrderStatus, version: nat): O.Row {
    O.Row(5, 1, status, version, "k")
  }

  function OrderNode(status: O.OrderStatus, version: nat, done: set<EventId>): Node<O.Db> {
    Node(O.Db([Row(status, version)], map[0 := OrderCreated(0, 5, 1)]), done)
  }

  /** Both verdicts of the gateway are on record: first a refusal, then, on redelivery, an approval. */
  const PAYMENT := Node(P.Db([P.Row(0, 5, P.Completed, Key(0, 0))],
                             map[1 := PaymentFailed(0), 2 := PaymentCompleted(0, 0, 5)], [P.Charge(0, 5)]), {0})

  const CREATED := Message(0, OrderCreated(0, 5, 1))
  const PAID := Message(2, PaymentCompleted(0, 0, 5))
  const RESERVED := Message(3, StockReserved(0, 0, 1))
  const STARTED := Message(4, DeliveryStarted(0, 0))

  const REFUSED := Message(1, PaymentFailed(0))

  const INVENTORY := Node(S.Db(S.Found(S.Level(0, 1, 1)), [S.Reservation(0, 1, S.Reserved, Key(0, 2))],
                               map[3 := StockReserved(0, 0, 1)]), {2})
  const DELIVERY := Node(D.Db([D.Row(0, Key(0, 3))], map[4 := DeliveryStarted(0, 0)]), {3})

  /** The system once the payment service has handled order.created twice. */
  const AFTER_PAYMENT := System(OrderNode(O.Pending, 0, {}), PAYMENT, Init(ONE_UNIT).inventory,
                                Init(ONE_UNIT).delivery, [CREATED], [], [], 3)
  /** ... once the order knows it is paid and inventory has reserved the unit. */
  const AFTER_STOCK := System(OrderNode(O.StockReserving, 1, {2}), PAYMENT, INVENTORY, Init(ONE_UNIT).delivery,
                              [CREATED, PAID], [], [0], 4)
  /** ... once the order knows about the reservation and the delivery has started. */
  const AFTER_DELIVERY := System(OrderNode(O.DeliveryPreparing, 2, {2, 3}), PAYMENT, INVENTORY, DELIVERY,
                                 [CREATED, PAID, RESERVED], [], [0], 5)
  /** ... once the order is COMPLETED and the old refusal comes off the outbox at last. */
  const AFTER_COMPLETION := System(OrderNode(O.Completed, 3, {2, 3, 4}), PAYMENT, INVENTORY, DELIVERY,
                                   [CREATED, PAID, RESERVED, STARTED, REFUSED], [], [0], 5)

  const CHARGE_TWICE := [Create(O.Command(5, 1, "k"), false, NoFault), Publish(OrderParty, 0),
                         ToPayment(0, UP, P.World(false, false, NoFault)),
                         ToPayment(0, UP, P.World(true, false, NoFault))]

  const RESERVE := [Publish(PaymentParty, 2), OrderRead(1, false), OrderWrite(0, false), ToInventory(1, UP, NoFault)]

  const DELIVER := [Publish(InventoryParty, 3), OrderRead(2, false), OrderWrite(0, false), ToDelivery(2, UP, NoFault)]

  const COMPLETE := [Publish(DeliveryParty, 4), OrderRead(3, false), OrderWrite(0, false), Publish(PaymentParty, 1)]

  const CANCEL := [OrderRead(4, false), OrderWrite(0, false)]

  lemma Run4(s: System, a: Step, b: Step, c: Step, d: Step)
    ensures Run(s, [a, b, c, d]) == Apply(Apply(Apply(Apply(s, a), b), c), d)
  {
    RunNext(s, [], a);
    RunNext(s, [a], b);
    RunNext(s, [a, b], c);
    RunNext(s, [a, b, c], d);
    assert [] + [a] == [a] && [a] + [b] == [a, b] && [a, b] + [c] == [a, b, c] && [a, b, c] + [d] == [a, b, c, d];
  }

  lemma DeclinedThenPaid()
    ensures Run(Init(ONE_UNIT), CHARGE_TWICE) == AFTER_PAYMENT
  {
    var s0 := Init(ONE_UNIT);
    Run4(s0, CHARGE_TWICE[0], CHARGE_TWICE[1], CHARGE_TWICE[2], CHARGE_TWICE[3]);
    var s1 := Apply(s0, CHARGE_TWICE[0]);
    assert s1.orders.db.rows == [Row(O.Pending, 0)];
    assert s1.orders.db.outbox == map[0 := OrderCreated(0, 5, 1)];
    var s2 := Apply(s1, CHARGE_TWICE[1]);
    assert s2.log == [CREATED];
    assert s2 == s0.(orders := OrderNode(O.Pending, 0, {}), log := [CREATED], next := 1);
    DeclinedThenPaid'(s2);
  }

  lemma DeclinedThenPaid'(s2: System)
    requires s2 == Init(ONE_UNIT).(orders := OrderNode(O.Pending, 0, {}), log := [CREATED], next := 1)
    ensures Apply(Apply(s2, CHARGE_TWICE[2]), CHARGE_TWICE[3]) == AFTER_PAYMENT
  {
    var s3 := Apply(s2, CHARGE_TWICE[2]);
    assert s3.payment.db.outbox == map[1 := PaymentFailed(0)];
    assert s3 == s2.(payment := Node(P.Db([], map[1 := PaymentFailed(0)], []), {}), next := 2);
    var s4 := Apply(s3, CHARGE_TWICE[3]);
    assert s4.payment.db.outbox == PAYMENT.db.outbox;
    assert s4.payment.db.rows == PAYMENT.db.rows;
    assert s4.payment.db.ledger == PAYMENT.db.ledger;
    assert s4.payment.done == PAYMENT.done;
    assert s4.payment == PAYMENT;
  }

  /** The order service handles the newest message: read, versioned write, key reserved. */
  lemma Hears(s: System, m: Message, before: O.OrderStatus, after: O.OrderStatus, version: nat, done: set<EventId>,
              done': set<EventId>)
    requires s.log != [] && s.log[|s.log| - 1] == m && m.body.order == 0 && O.Consumes(m.body)
    requires s.orders == OrderNode(before, version, done) && s.inflight == [] && m.id !in done
    requires done' == done + {m.id}
    requires O.Target(m.body, before) == O.Write(after)
    ensures Apply(Apply(s, OrderRead(|s.log| - 1, false)), OrderWrite(0, false)) ==
            s.(orders := OrderNode(after, version + 1, done'))
  {
    var op := O.Op(m, before, version);
    var s1 := s.(inflight := [op]);
    assert Apply(s, OrderRead(|s.log| - 1, false)) == s1;
    assert O.Finish(s.orders.db.rows, op) == [Row(after, version + 1)];
    assert Without([op], 0) == [];
  }

  lemma Publishes(s: System, party: Party, m: Message, log: seq<Message>)
    requires m.id in OutboxOf(s, party) && OutboxOf(s, party)[m.id] == m.body && log == s.log + [m]
    ensures Apply(s, Publish(party, m.id)) == s.(log := log)
  {
  }

  const PAID_PUBLISHED := AFTER_PAYMENT.(log := [CREATED, PAID])
  const PAID_HEARD := PAID_PUBLISHED.(orders := OrderNode(O.StockReserving, 1, {2}))

  lemma PaidIsPublished()
    ensures Apply(AFTER_PAYMENT, RESERVE[0]) == PAID_PUBLISHED
  {
    assert PAID.id in PAYMENT.db.outbox && PAYMENT.db.outbox[PAID.id] == PAID.body;
    Publishes(AFTER_PAYMENT, PaymentParty, PAID, [CREATED, PAID]);
  }

  lemma PaidIsHeard()
    ensures Apply(Apply(PAID_PUBLISHED, RESERVE[1]), RESERVE[2]) == PAID_HEARD
  {
    Hears(PAID_PUBLISHED, PAID, O.Pending, O.StockReserving, 0, {}, {2});
  }

  lemma PaidThenReserved()
    ensures Run(AFTER_PAYMENT, RESERVE) == AFTER_STOCK
  {
    Run4(AFTER_PAYMENT, RESERVE[0], RESERVE[1], RESERVE[2], RESERVE[3]);
    PaidIsPublished();
    PaidIsHeard();
    ReservedFrom(PAID_HEARD);
  }

  lemma ReservedFrom(s3: System)
    requires s3 == AFTER_PAYMENT.(log := [CREATED, PAID], orders := OrderNode(O.StockReserving, 1, {2}))
    ensures Apply(s3, RESERVE[3]) == AFTER_STOCK
  {
    var s4 := Apply(s3, RESERVE[3]);
    assert s4.inventory.db.reservations == INVENTORY.db.reservations;
    assert s4.inventory.db.outbox == INVENTORY.db.outbox;
    assert s4.inventory == INVENTORY;
    assert s4.attempts == [0];
  }

  const RESERVED_PUBLISHED := AFTER_STOCK.(log := [CREATED, PAID, RESERVED])
  const RESERVED_HEARD := RESERVED_PUBLISHED.(orders := OrderNode(O.DeliveryPreparing, 2, {2, 3}))

  lemma ReservedIsHeard()
    ensures Apply(AFTER_STOCK, DELIVER[0]) == RESERVED_PUBLISHED
    ensures Apply(Apply(RESERVED_PUBLISHED, DELIVER[1]), DELIVER[2]) == RESERVED_HEARD
  {
    Publishes(AFTER_STOCK, InventoryParty, RESERVED, [CREATED, PAID, RESERVED]);
    Hears(RESERVED_PUBLISHED, RESERVED, O.StockReserving, O.DeliveryPreparing, 1, {2}, {2, 3});
  }

  lemma ReservedThenShipped()
    ensures Run(AFTER_STOCK, DELIVER) == AFTER_DELIVERY
  {
    Run4(AFTER_STOCK, DELIVER[0], DELIVER[1], DELIVER[2], DELIVER[3]);
    ReservedIsHeard();
    ShippedFrom(RESERVED_HEARD);
  }

  lemma ShippedFrom(s3: System)
    requires s3 == AFTER_STOCK.(log := [CREATED, PAID, RESERVED], orders := OrderNode(O.DeliveryPreparing, 2, {2, 3}))
    ensures Apply(s3, DELIVER[3]) == AFTER_DELIVERY
  {
    var s4 := Apply(s3, DELIVER[3]);
    assert s4.delivery.db.rows == DELIVERY.db.rows;
    assert s4.delivery.db.outbox == DELIVERY.db.outbox;
  }

  const STARTED_PUBLISHED := AFTER_DELIVERY.(log := [CREATED, PAID, RESERVED, STARTED])
  const STARTED_HEARD := STARTED_PUBLISHED.(orders := OrderNode(O.Completed, 3, {2, 3, 4}))

  lemma StartedIsHeard()
    ensures Apply(AFTER_DELIVERY, COMPLETE[0]) == STARTED_PUBLISHED
    ensures Apply(Apply(STARTED_PUBLISHED, COMPLETE[1]), COMPLETE[2]) == STARTED_HEARD
  {
    Publishes(AFTER_DELIVERY, DeliveryParty, STARTED, [CREATED, PAID, RESERVED, STARTED]);
    Hears(STARTED_PUBLISHED, STARTED, O.DeliveryPreparing, O.Completed, 2, {2, 3}, {2, 3, 4});
  }

  lemma ShippedThenCompleted()
    ensures Run(AFTER_DELIVERY, COMPLETE) == AFTER_COMPLETION
  {
    Run4(AFTER_DELIVERY, COMPLETE[0], COMPLETE[1], COMPLETE[2], COMPLETE[3]);
    StartedIsHeard();
    Publishes(STARTED_HEARD, PaymentParty, REFUSED, AFTER_COMPLETION.log);
  }

  /** The store remembers the refusal as the last of the order's four events. */
  lemma RefusalIsRemembered()
    ensures REFUSED.id !in {2, 3, 4} && {2, 3, 4} + {REFUSED.id} == {1, 2, 3, 4}
  {
  }

  lemma RefusedIsHeard()
    ensures Apply(Apply(AFTER_COMPLETION, CANCEL[0]), CANCEL[1]) ==
            AFTER_COMPLETION.(orders := OrderNode(O.Canceled, 4, {1, 2, 3, 4}))
  {
    RefusalIsRemembered();
    Hears(AFTER_COMPLETION, REFUSED, O.Completed, O.Canceled, 3, {2, 3, 4}, {1, 2, 3, 4});
  }

  lemma RunCancel(s: System)
    ensures Run(s, CANCEL) == Apply(Apply(s, CANCEL[0]), CANCEL[1])
  {
    RunNext(s, [], CANCEL[0]);
    RunNext(s, [CANCEL[0]], CANCEL[1]);
    assert [] + [CANCEL[0]] == [CANCEL[0]] && [CANCEL[0]] + [CANCEL[1]] == CANCEL;
  }

  lemma CompletedThenCanceled()
    ensures Run(AFTER_COMPLETION, CANCEL).orders.db.rows == [Row(O.Canceled, 4)]
  {
    RunCancel(AFTER_COMPLETION);
    RefusedIsHeard();
  }

  lemma BothVerdicts()
    ensures Refused(AFTER_COMPLETION, 0) && Paid(AFTER_COMPLETION, 0)
  {
    var out := AFTER_COMPLETION.payment.db.outbox;
    assert out[1] == PaymentFailed(0) && TopicOf(out[1]) == PaymentFailedV1;
    assert AFTER_COMPLETION.payment.db.rows[0].order == 0;
  }

  function WholeRun(): seq<Step> {
    CHARGE_TWICE + RESERVE + DELIVER + COMPLETE
  }

  lemma ReachesCompletion()
    ensures Run(Init(ONE_UNIT), WholeRun()) == AFTER_COMPLETION
  {
    DeclinedThenPaid();
    PaidThenReserved();
    ReservedThenShipped();
    ShippedThenCompleted();
    Run4Phases(Init(ONE_UNIT), CHARGE_TWICE, RESERVE, DELIVER, COMPLETE);
  }

  lemma Run4Phases(s: System, a: seq<Step>, b: seq<Step>, c: seq<Step>, d: seq<Step>)
    ensures Run(s, a + b + c + d) == Run(Run(Run(Run(s, a), b), c), d)
  {
    RunConcat(s, a, b);
    RunConcat(s, a + b, c);
    RunConcat(s, a + b + c, d);
  }

  /**
   Redelivering one order.created after a refusal is enough: the order reaches COMPLETED, shipped and
   paid, and the late payment.failed then makes it CANCELED.
   */
  lemma CompletedOrderCanceled()
    ensures ValidStart(ONE_UNIT) && !HandledOnce(ONE_UNIT, WholeRun())
    ensures var s := Run(Init(ONE_UNIT), WholeRun());
      && s.orders.db.rows == [Row(O.Completed, 3)] && Shipped(s, 0)
      && Run(s, CANCEL).orders.db.rows == [Row(O.Canceled, 4)]
  {
    ReachesCompletion();
    CompletedThenCanceled();
    assert AFTER_COMPLETION.delivery.db.rows[0].order == 0;
    BothVerdicts();
    if HandledOnce(ONE_UNIT, WholeRun()) {
      OneVerdictRun(ONE_UNIT, WholeRun());
    }
  }
}

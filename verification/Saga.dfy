/** The four services, Kafka and Redis as one closed step system, and its inductive invariant. */
module Saga {
  import opened Events
  import opened Idempotency
  import O = Orders
  import P = Payments
  import S = Stock
  import D = Deliveries
  import H = OrderHistory

  datatype Party = OrderParty | PaymentParty | InventoryParty | DeliveryParty

  /**
   `log` is everything ever published, `inflight` the order handlers between their read and their
   write, `attempts` the distinct paid orders in the order in which inventory first committed an
   outcome for them, `next` the next unused event identifier.
   */
  datatype System = System(
    orders: Node<O.Db>, payment: Node<P.Db>, inventory: Node<S.Db>, delivery: Node<D.Db>,
    log: seq<Message>, inflight: seq<O.Op>, attempts: seq<nat>, next: EventId)

  function Init(product: S.Product): System {
    System(Node(O.Db([], map[]), {}), Node(P.Db([], map[], []), {}), Node(S.Db(product, [], map[]), {}),
           Node(D.Db([], map[]), {}), [], [], [], 0)
  }

  function OutboxOf(s: System, party: Party): Outbox {
    match party
    case OrderParty => s.orders.db.outbox
    case PaymentParty => s.payment.db.outbox
    case InventoryParty => s.inventory.db.outbox
    case DeliveryParty => s.delivery.db.outbox
  }

  /**
   One step of the world. Any outbox row may be published at any time, any number of times; any
   published message may be delivered to any subscriber at any time, any number of times.
   */
  datatype Step =
    | Create(cmd: O.Command, lookupFails: bool, fault: Fault)
    | Publish(party: Party, id: EventId)
    | ToPayment(at: nat, redis: Redis, world: P.World)
    | ToInventory(at: nat, redis: Redis, fault: Fault)
    | ToDelivery(at: nat, redis: Redis, fault: Fault)
    | OrderRead(at: nat, checkFails: bool)
    | OrderWrite(op: nat, reserveFails: bool)
    | OrderCrash(op: nat)
    | Expire(party: Party, id: EventId)

  function DoCreate(s: System, cmd: O.Command, lookupFails: bool, fault: Fault): System {
    s.(orders := s.orders.(db := O.OnCreate(s.orders.db, cmd, s.next, lookupFails, fault).db), next := s.next + 1)
  }

  function DoPayment(s: System, m: Message, redis: Redis, w: P.World): System {
    s.(payment := P.Receive(s.payment, m, s.next, redis, w), next := s.next + 1)
  }

  /** Append the order of a fresh inventory outcome, unless it is already there. */
  function Noted(attempts: seq<nat>, outbox: Outbox, id: EventId): seq<nat> {
    if id in outbox && !outbox[id].StockRestored? && outbox[id].order !in attempts
    then attempts + [outbox[id].order] else attempts
  }

  function DoInventory(s: System, m: Message, redis: Redis, fault: Fault): System {
    var node := S.Receive(s.inventory, m, s.next, redis, fault);
    s.(inventory := node, attempts := Noted(s.attempts, node.db.outbox, s.next), next := s.next + 1)
  }

  function DoDelivery(s: System, m: Message, redis: Redis, fault: Fault): System {
    s.(delivery := D.Receive(s.delivery, m, s.next, redis, fault), next := s.next + 1)
  }

  function DoOrderRead(s: System, m: Message, checkFails: bool): System {
    var rows := s.orders.db.rows;
    if !O.Consumes(m.body) || (!checkFails && m.id in s.orders.done) || m.body.order >= |rows| then s
    else s.(inflight := s.inflight + [O.Op(m, rows[m.body.order].status, rows[m.body.order].version)])
  }

  function DoOrderWrite(s: System, i: nat, reserveFails: bool): System
    requires i < |s.inflight|
  {
    var op := s.inflight[i];
    s.(orders := Node(s.orders.db.(rows := O.Finish(s.orders.db.rows, op)),
                      if reserveFails then s.orders.done else s.orders.done + {op.message.id}),
       inflight := Without(s.inflight, i))
  }

  function DoExpire(s: System, party: Party, id: EventId): System {
    match party
    case OrderParty => s.(orders := s.orders.(done := s.orders.done - {id}))
    case PaymentParty => s.(payment := s.payment.(done := s.payment.done - {id}))
    case InventoryParty => s.(inventory := s.inventory.(done := s.inventory.done - {id}))
    case DeliveryParty => s.(delivery := s.delivery.(done := s.delivery.done - {id}))
  }

  /** A step that is not enabled leaves the system as it is. */
  function Apply(s: System, step: Step): System {
    match step
    case Create(cmd, lookupFails, fault) => DoCreate(s, cmd, lookupFails, fault)
    case Publish(party, id) =>
      if id in OutboxOf(s, party) then s.(log := s.log + [Message(id, OutboxOf(s, party)[id])]) else s
    case ToPayment(at, redis, w) => if at < |s.log| then DoPayment(s, s.log[at], redis, w) else s
    case ToInventory(at, redis, fault) => if at < |s.log| then DoInventory(s, s.log[at], redis, fault) else s
    case ToDelivery(at, redis, fault) => if at < |s.log| then DoDelivery(s, s.log[at], redis, fault) else s
    case OrderRead(at, checkFails) => if at < |s.log| then DoOrderRead(s, s.log[at], checkFails) else s
    case OrderWrite(op, reserveFails) => if op < |s.inflight| then DoOrderWrite(s, op, reserveFails) else s
    case OrderCrash(op) => if op < |s.inflight| then s.(inflight := Without(s.inflight, op)) else s
    case Expire(party, id) => DoExpire(s, party, id)
  }

  function Run(s: System, steps: seq<Step>): System
    decreases |steps|
  {
    if steps == [] then s else Apply(Run(s, steps[..|steps| - 1]), steps[|steps| - 1])
  }

  /** Every payment lookup of the run answers. */
  predicate Trusting(steps: seq<Step>) {
    forall i :: 0 <= i < |steps| && steps[i].ToPayment? ==> !steps[i].world.lookupFails
  }

  lemma {:induction false} RunNext(s: System, steps: seq<Step>, step: Step)
    ensures Run(s, steps + [step]) == Apply(Run(s, steps), step)
  {
    assert (steps + [step])[..|steps|] == steps;
  }

  lemma {:induction false} RunConcat(s: System, steps: seq<Step>, more: seq<Step>)
    ensures Run(s, steps + more) == Run(Run(s, steps), more)
    decreases |more|
  {
    if more == [] {
      assert steps + more == steps;
    } else {
      var init, last := more[..|more| - 1], more[|more| - 1];
      RunConcat(s, steps, init);
      RunNext(s, steps + init, last);
      RunNext(Run(s, steps), init, last);
      LastApart(steps, more);
    }
  }

  lemma LastApart(steps: seq<Step>, more: seq<Step>)
    requires more != []
    ensures var init, last := more[..|more| - 1], more[|more| - 1];
      more == init + [last] && steps + more == steps + init + [last]
  {
  }

  // ---------------------------------------------------------------- the invariant, table by table

  function Producer(topic: Topic): Party {
    match topic
    case OrderCreatedV1 => OrderParty
    case PaymentCompletedV1 => PaymentParty
    case PaymentFailedV1 => PaymentParty
    case PaymentRefundedV1 => PaymentParty
    case StockReservedV1 => InventoryParty
    case StockReservationFailedV1 => InventoryParty
    case StockRestoredV1 => InventoryParty
    case DeliveryStartedV1 => DeliveryParty
    case DeliveryFailedV1 => DeliveryParty
  }

  ghost predicate OutboxInv(outbox: Outbox, party: Party, next: EventId) {
    forall e :: e in outbox ==> e < next && Producer(TopicOf(outbox[e])) == party
  }

  ghost predicate CreatedInv(rows: seq<O.Row>, body: Event) {
    body.OrderCreated? && body.order < |rows| && body.amount == rows[body.order].amount && body.amount > 0
  }

  ghost predicate OrdersInv(o: O.Db, next: EventId) {
    && OutboxInv(o.outbox, OrderParty, next)
    && (forall e :: e in o.outbox ==> CreatedInv(o.rows, o.outbox[e]))
    && AtMostOne(o.outbox, OrderCreatedV1)
  }

  /** A payment was caused by the order.created event its key names, for that event's amount. */
  ghost predicate PaymentRowInv(created: Outbox, stock: Outbox, r: P.Row) {
    && r.key.order == r.order
    && r.key.event in created
    && created[r.key.event].OrderCreated?
    && created[r.key.event].order == r.order
    && created[r.key.event].amount == r.amount
    && (r.status.Completed? || (r.status.Refunded? && Has(stock, StockReservationFailedV1, r.order)))
  }

  ghost predicate PaymentEventInv(created: Outbox, rows: seq<P.Row>, body: Event) {
    match body
    case PaymentCompleted(order, i, amount) => i < |rows| && rows[i].order == order && rows[i].amount == amount
    case PaymentRefunded(order, i, amount) =>
      i < |rows| && rows[i].order == order && rows[i].amount == amount && rows[i].status.Refunded?
    case PaymentFailed(order) => Has(created, OrderCreatedV1, order)
    case _ => false
  }

  ghost predicate PaymentInv(created: Outbox, stock: Outbox, p: P.Db, next: EventId) {
    && OutboxInv(p.outbox, PaymentParty, next)
    && (forall i :: 0 <= i < |p.rows| ==> PaymentRowInv(created, stock, p.rows[i]))
    && (forall i, j :: 0 <= i < j < |p.rows| ==> p.rows[i].order != p.rows[j].order)
    && (forall e :: e in p.outbox ==> PaymentEventInv(created, p.rows, p.outbox[e]))
    && AtMostOne(p.outbox, PaymentCompletedV1)
  }

  /** A reservation was caused by the payment.completed event its key names. */
  ghost predicate ReservationInv(paid: Outbox, r: S.Reservation) {
    && r.key.order == r.order
    && r.key.event in paid
    && paid[r.key.event].PaymentCompleted?
    && paid[r.key.event].order == r.order
    && r.quantity == S.UNIT
    && r.status.Reserved?
  }

  /** No unit is left, and none ever comes back. */
  ghost predicate SoldOut(product: S.Product) {
    product.Missing? || product.level.available < S.UNIT
  }

  ghost predicate StockEventInv(paid: Outbox, st: S.Db, body: Event) {
    match body
    case StockReserved(order, r, q) =>
      r < |st.reservations| && st.reservations[r].order == order && q == S.UNIT
    case StockReservationFailed(order, _) =>
      && SoldOut(st.product)
      && Has(paid, PaymentCompletedV1, order)
      && forall r :: 0 <= r < |st.reservations| ==> st.reservations[r].order != order
    case _ => false
  }

  /** Stock arithmetic: every reservation took one unit, and nothing else moved the row. */
  ghost predicate LevelInv(start: S.Product, st: S.Db) {
    match start
    case Missing => st.product.Missing? && st.reservations == []
    case Found(l) =>
      var n := |st.reservations|;
      st.product == S.Found(S.Level(l.available - n, l.reserved + n, l.version + n)) && n <= l.available
  }

  ghost predicate AttemptsInv(st: S.Db, attempts: seq<nat>) {
    && (forall i, j :: 0 <= i < j < |attempts| ==> attempts[i] != attempts[j])
    && |st.reservations| <= |attempts|
    && (forall i :: 0 <= i < |st.reservations| ==> attempts[i] == st.reservations[i].order)
    && (forall i :: |st.reservations| <= i < |attempts| ==> Has(st.outbox, StockReservationFailedV1, attempts[i]))
    && (|st.reservations| < |attempts| ==> SoldOut(st.product))
    && (forall e :: e in st.outbox && st.outbox[e].StockReservationFailed? ==> st.outbox[e].order in attempts)
  }

  ghost predicate StockInv(start: S.Product, paid: Outbox, st: S.Db, attempts: seq<nat>, next: EventId) {
    && OutboxInv(st.outbox, InventoryParty, next)
    && (forall i :: 0 <= i < |st.reservations| ==> ReservationInv(paid, st.reservations[i]))
    && (forall i, j :: 0 <= i < j < |st.reservations| ==> st.reservations[i].order != st.reservations[j].order)
    && (forall i :: 0 <= i < |st.reservations| ==> Has(st.outbox, StockReservedV1, st.reservations[i].order))
    && (forall e :: e in st.outbox ==> StockEventInv(paid, st, st.outbox[e]))
    && AtMostOne(st.outbox, StockReservedV1)
    && LevelInv(start, st)
    && AttemptsInv(st, attempts)
  }

  /** A delivery was caused by the stock.reserved event its key names. */
  ghost predicate DeliveryRowInv(reserved: Outbox, r: D.Row) {
    && r.key.order == r.order
    && r.key.event in reserved
    && reserved[r.key.event].StockReserved?
    && reserved[r.key.event].order == r.order
  }

  ghost predicate DeliveryEventInv(rows: seq<D.Row>, body: Event) {
    body.DeliveryStarted? && body.delivery < |rows| && rows[body.delivery].order == body.order
  }

  ghost predicate DeliveryInv(reserved: Outbox, d: D.Db, next: EventId) {
    && OutboxInv(d.outbox, DeliveryParty, next)
    && (forall i :: 0 <= i < |d.rows| ==> DeliveryRowInv(reserved, d.rows[i]))
    && (forall i, j :: 0 <= i < j < |d.rows| ==> d.rows[i].order != d.rows[j].order)
    && (forall i :: 0 <= i < |d.rows| ==> Has(d.outbox, DeliveryStartedV1, d.rows[i].order))
    && (forall e :: e in d.outbox ==> DeliveryEventInv(d.rows, d.outbox[e]))
    && AtMostOne(d.outbox, DeliveryStartedV1)
  }

  /** The message is a row of its producer's outbox. */
  ghost predicate Issued(s: System, m: Message) {
    var outbox := OutboxOf(s, Producer(TopicOf(m.body)));
    m.id in outbox && outbox[m.id] == m.body
  }

  /** An order's status is backed by the event that put it there. */
  ghost predicate Backed(s: System, order: nat, status: O.OrderStatus) {
    match status
    case Pending => true
    case PaymentProcessing => false
    case StockReserving => Has(s.payment.db.outbox, PaymentCompletedV1, order)
    case DeliveryPreparing => Has(s.inventory.db.outbox, StockReservedV1, order)
    case Completed => Has(s.delivery.db.outbox, DeliveryStartedV1, order)
    case Canceled => Has(s.payment.db.outbox, PaymentFailedV1, order)
    case Failed => Has(s.inventory.db.outbox, StockReservationFailedV1, order)
  }

  /** An unfinished handler is for an issued event, and read its row at the version it remembers. */
  ghost predicate OpInv(s: System, op: O.Op) {
    Issued(s, op.message) && H.OpFresh(s.orders.db.rows, op)
  }

  ghost predicate OrderStatusInv(s: System) {
    && (forall i :: 0 <= i < |s.log| ==> Issued(s, s.log[i]))
    && (forall i :: 0 <= i < |s.inflight| ==> OpInv(s, s.inflight[i]))
    && (forall o :: 0 <= o < |s.orders.db.rows| ==> Backed(s, o, s.orders.db.rows[o].status))
  }

  ghost predicate Inv(start: S.Product, s: System) {
    && OrdersInv(s.orders.db, s.next)
    && PaymentInv(s.orders.db.outbox, s.inventory.db.outbox, s.payment.db, s.next)
    && StockInv(start, s.payment.db.outbox, s.inventory.db, s.attempts, s.next)
    && DeliveryInv(s.inventory.db.outbox, s.delivery.db, s.next)
    && OrderStatusInv(s)
  }

  // ---------------------------------------------------------------- each service keeps its part

  /** The order table is a prefix of the later one, where every added order is PENDING. */
  ghost predicate RowsExtend(rows: seq<O.Row>, rows': seq<O.Row>) {
    && |rows| <= |rows'|
    && (forall i :: 0 <= i < |rows| ==> rows'[i] == rows[i])
    && (forall i :: |rows| <= i < |rows'| ==> rows'[i].status.Pending?)
  }

  lemma HasGrows(a: Outbox, b: Outbox, topic: Topic, order: nat)
    requires Grows(a, b) && Has(a, topic, order)
    ensures Has(b, topic, order)
  {
    var e :| e in a && TopicOf(a[e]) == topic && a[e].order == order;
    assert e in b && b[e] == a[e];
  }

  lemma PaymentInvGrows(created: Outbox, stock: Outbox, created': Outbox, stock': Outbox,
                        p: P.Db, next: EventId, next': EventId)
    requires PaymentInv(created, stock, p, next) && Grows(created, created') && Grows(stock, stock') && next <= next'
    ensures PaymentInv(created', stock', p, next')
  {
    forall i | 0 <= i < |p.rows|
      ensures PaymentRowInv(created', stock', p.rows[i])
    {
      if p.rows[i].status.Refunded? {
        HasGrows(stock, stock', StockReservationFailedV1, p.rows[i].order);
      }
    }
    forall e | e in p.outbox
      ensures PaymentEventInv(created', p.rows, p.outbox[e])
    {
      if p.outbox[e].PaymentFailed? {
        HasGrows(created, created', OrderCreatedV1, p.outbox[e].order);
      }
    }
  }

  lemma StockInvGrows(start: S.Product, paid: Outbox, paid': Outbox, st: S.Db, attempts: seq<nat>,
                      next: EventId, next': EventId)
    requires StockInv(start, paid, st, attempts, next) && Grows(paid, paid') && next <= next'
    ensures StockInv(start, paid', st, attempts, next')
  {
    forall e | e in st.outbox
      ensures StockEventInv(paid', st, st.outbox[e])
    {
      if st.outbox[e].StockReservationFailed? {
        HasGrows(paid, paid', PaymentCompletedV1, st.outbox[e].order);
      }
    }
    forall i | 0 <= i < |st.reservations|
      ensures ReservationInv(paid', st.reservations[i])
    {
      assert ReservationInv(paid, st.reservations[i]);
    }
  }

  lemma DeliveryInvGrows(reserved: Outbox, reserved': Outbox, d: D.Db, next: EventId, next': EventId)
    requires DeliveryInv(reserved, d, next) && Grows(reserved, reserved') && next <= next'
    ensures DeliveryInv(reserved', d, next')
  {
    forall i | 0 <= i < |d.rows|
      ensures DeliveryRowInv(reserved', d.rows[i])
    {
      assert DeliveryRowInv(reserved, d.rows[i]);
    }
  }

  lemma HasAdded(outbox: Outbox, id: EventId, body: Event)
    requires id !in outbox
    ensures Grows(outbox, outbox[id := body])
    ensures Has(outbox[id := body], TopicOf(body), body.order)
  {
    assert outbox[id := body][id] == body;
  }

  lemma OrderAdded(o: O.Db, row: O.Row, next: EventId)
    requires OrdersInv(o, next) && row.amount > 0
    ensures OrdersInv(o.(rows := o.rows + [row]), next)
    ensures var body := OrderCreated(|o.rows|, row.amount, row.quantity);
      OrdersInv(O.Db(o.rows + [row], o.outbox[next := body]), next + 1) && Grows(o.outbox, o.outbox[next := body])
  {
    forall e | e in o.outbox
      ensures CreatedInv(o.rows + [row], o.outbox[e]) && o.outbox[e].order != |o.rows|
    {
      assert CreatedInv(o.rows, o.outbox[e]);
    }
  }

  lemma CreateKeeps(o: O.Db, cmd: O.Command, lookupFails: bool, fault: Fault, next: EventId)
    requires OrdersInv(o, next)
    ensures var o' := O.OnCreate(o, cmd, next, lookupFails, fault).db;
      OrdersInv(o', next + 1) && Grows(o.outbox, o'.outbox) && RowsExtend(o.rows, o'.rows)
  {
    if cmd.amount > 0 {
      OrderAdded(o, O.Row(cmd.amount, cmd.quantity, O.Pending, 0, cmd.key), next);
    }
  }

  /** An order with a payment already has one under the key of its own order.created event. */
  lemma PaidUnderItsKey(created: Outbox, stock: Outbox, p: P.Db, id: EventId, order: nat, i: nat, next: EventId)
    requires PaymentInv(created, stock, p, next) && AtMostOne(created, OrderCreatedV1)
    requires id in created && created[id].OrderCreated? && created[id].order == order
    requires i < |p.rows| && p.rows[i].order == order
    ensures p.rows[i].key == Key(order, id)
    ensures P.HasKey(p.rows, Key(order, id))
  {
    assert PaymentRowInv(created, stock, p.rows[i]);
  }

  /** The first payment.completed of its order, or an event of another topic. */
  lemma CompletionStaysUnique(outbox: Outbox, next: EventId, body: Event)
    requires next !in outbox && AtMostOne(outbox, PaymentCompletedV1)
    requires body.PaymentCompleted? ==> !Has(outbox, PaymentCompletedV1, body.order)
    ensures AtMostOne(outbox[next := body], PaymentCompletedV1)
  {
    var outbox' := outbox[next := body];
    forall e, f | e in outbox' && f in outbox' && TopicOf(outbox'[e]) == PaymentCompletedV1 == TopicOf(outbox'[f]) &&
                  outbox'[e].order == outbox'[f].order
      ensures e == f
    {
      assert e in outbox || f in outbox || e == f;
    }
  }

  lemma PaymentEventAdded(created: Outbox, stock: Outbox, p: P.Db, next: EventId, body: Event)
    requires PaymentInv(created, stock, p, next) && PaymentEventInv(created, p.rows, body)
    requires body.PaymentCompleted? ==> !Has(p.outbox, PaymentCompletedV1, body.order)
    ensures PaymentInv(created, stock, p.(outbox := p.outbox[next := body]), next + 1)
    ensures Grows(p.outbox, p.outbox[next := body])
  {
    CompletionStaysUnique(p.outbox, next, body);
  }

  lemma PaymentRowAdded(created: Outbox, stock: Outbox, p: P.Db, next: EventId, row: P.Row)
    requires PaymentInv(created, stock, p, next) && PaymentRowInv(created, stock, row)
    requires forall i :: 0 <= i < |p.rows| ==> p.rows[i].order != row.order
    ensures PaymentInv(created, stock, p.(rows := p.rows + [row]), next)
    ensures !Has(p.outbox, PaymentCompletedV1, row.order)
  {
    var rows := p.rows + [row];
    forall e | e in p.outbox
      ensures PaymentEventInv(created, rows, p.outbox[e])
      ensures p.outbox[e].PaymentCompleted? ==> p.outbox[e].order != row.order
    {
      assert PaymentEventInv(created, p.rows, p.outbox[e]);
    }
  }

  lemma PaymentBooked(created: Outbox, stock: Outbox, p: P.Db, id: EventId, next: EventId)
    requires PaymentInv(created, stock, p, next) && AtMostOne(created, OrderCreatedV1)
    requires id in created && created[id].OrderCreated? && !P.HasKey(p.rows, Key(created[id].order, id))
    ensures var row := P.Row(created[id].order, created[id].amount, P.Completed, Key(created[id].order, id));
      PaymentInv(created, stock, p.(rows := p.rows + [row]), next)
    ensures !Has(p.outbox, PaymentCompletedV1, created[id].order)
  {
    var order := created[id].order;
    forall i | 0 <= i < |p.rows|
      ensures p.rows[i].order != order
    {
      if p.rows[i].order == order {
        PaidUnderItsKey(created, stock, p, id, order, i, next);
      }
    }
    PaymentRowAdded(created, stock, p, next, P.Row(order, created[id].amount, P.Completed, Key(order, id)));
  }

  lemma ChargeKeeps(created: Outbox, stock: Outbox, p: P.Db, id: EventId, next: EventId, w: P.World)
    requires PaymentInv(created, stock, p, next) && AtMostOne(created, OrderCreatedV1)
    requires id in created && created[id].OrderCreated?
    ensures var p' := P.OnOrderCreated(p, id, created[id].order, created[id].amount, next, w).db;
      PaymentInv(created, stock, p', next + 1) && Grows(p.outbox, p'.outbox)
  {
    var order, amount := created[id].order, created[id].amount;
    var p' := P.OnOrderCreated(p, id, order, amount, next, w).db;
    assert TopicOf(created[id]) == OrderCreatedV1;
    if |p'.rows| > |p.rows| {
      PaymentBooked(created, stock, p, id, next);
      assert p'.rows == p.rows + [P.Row(order, amount, P.Completed, Key(order, id))];
      if next in p'.outbox {
        PaymentEventAdded(created, stock, p.(rows := p'.rows), next, p'.outbox[next]);
      }
    } else if next in p'.outbox {
      PaymentEventAdded(created, stock, p, next, PaymentFailed(order));
    }
  }

  lemma PaymentRefundedKeeps(created: Outbox, stock: Outbox, p: P.Db, i: nat, next: EventId)
    requires PaymentInv(created, stock, p, next) && i < |p.rows|
    requires Has(stock, StockReservationFailedV1, p.rows[i].order)
    ensures PaymentInv(created, stock, p.(rows := p.rows[i := p.rows[i].(status := P.Refunded)]), next)
  {
    var rows := p.rows[i := p.rows[i].(status := P.Refunded)];
    forall e | e in p.outbox
      ensures PaymentEventInv(created, rows, p.outbox[e])
    {
      assert PaymentEventInv(created, p.rows, p.outbox[e]);
    }
    assert PaymentRowInv(created, stock, p.rows[i]);
  }

  lemma RefundKeeps(created: Outbox, stock: Outbox, p: P.Db, order: nat, next: EventId, fault: Fault)
    requires PaymentInv(created, stock, p, next) && Has(stock, StockReservationFailedV1, order)
    ensures var p' := P.OnStockReservationFailed(p, order, next, fault).db;
      PaymentInv(created, stock, p', next + 1) && Grows(p.outbox, p'.outbox)
  {
    var p' := P.OnStockReservationFailed(p, order, next, fault).db;
    var i := P.FindByOrder(p.rows, order);
    if p'.rows != p.rows {
      PaymentRefundedKeeps(created, stock, p, i, next);
      if next in p'.outbox {
        PaymentEventAdded(created, stock, p.(rows := p'.rows), next, p'.outbox[next]);
      }
    }
  }

  /** A reserved order holds its reservation under the key of its one payment.completed event. */
  lemma ReservedUnderItsKey(start: S.Product, paid: Outbox, st: S.Db, attempts: seq<nat>, id: EventId, i: nat,
                            next: EventId)
    requires StockInv(start, paid, st, attempts, next) && AtMostOne(paid, PaymentCompletedV1)
    requires id in paid && paid[id].PaymentCompleted?
    requires i < |st.reservations| && st.reservations[i].order == paid[id].order
    ensures st.reservations[i].key == Key(paid[id].order, id)
    ensures S.HasKey(st.reservations, Key(paid[id].order, id))
  {
    assert ReservationInv(paid, st.reservations[i]);
  }

  lemma ReserveKeeps(start: S.Product, paid: Outbox, st: S.Db, attempts: seq<nat>, id: EventId, next: EventId,
                     fault: Fault)
    requires StockInv(start, paid, st, attempts, next) && AtMostOne(paid, PaymentCompletedV1)
    requires id in paid && paid[id].PaymentCompleted?
    ensures var st' := S.OnPaymentCompleted(st, id, paid[id].order, next, fault).db;
      && StockInv(start, paid, st', Noted(attempts, st'.outbox, next), next + 1)
      && Grows(st.outbox, st'.outbox)
  {
    var order := paid[id].order;
    var st' := S.OnPaymentCompleted(st, id, order, next, fault).db;
    if st' == st {
      StockInvGrows(start, paid, paid, st, attempts, next, next + 1);
    } else {
      forall i | 0 <= i < |st.reservations|
        ensures st.reservations[i].order != order
      {
        if st.reservations[i].order == order {
          ReservedUnderItsKey(start, paid, st, attempts, id, i, next);
        }
      }
      if SoldOut(st.product) {
        assert TopicOf(paid[id]) == PaymentCompletedV1;
        FailureCommitKeeps(start, paid, st, attempts, order, st'.outbox[next].reason, next);
      } else {
        ReserveCommitKeeps(start, paid, st, attempts, S.Reservation(order, S.UNIT, S.Reserved, Key(order, id)), next);
      }
    }
  }

  lemma ReserveCommitKeeps(start: S.Product, paid: Outbox, st: S.Db, attempts: seq<nat>, row: S.Reservation,
                           next: EventId)
    requires StockInv(start, paid, st, attempts, next) && ReservationInv(paid, row) && !SoldOut(st.product)
    requires forall i :: 0 <= i < |st.reservations| ==> st.reservations[i].order != row.order
    ensures var st' := S.Db(S.Found(st.product.level.Take(S.UNIT)), st.reservations + [row],
                            st.outbox[next := StockReserved(row.order, |st.reservations|, S.UNIT)]);
      && StockInv(start, paid, st', Noted(attempts, st'.outbox, next), next + 1)
      && Grows(st.outbox, st'.outbox)
  {
    var st' := S.Db(S.Found(st.product.level.Take(S.UNIT)), st.reservations + [row],
                    st.outbox[next := StockReserved(row.order, |st.reservations|, S.UNIT)]);
    OldStockEvents(paid, st, st', row.order);
    ReservationAdded(st.reservations, st.outbox, row, next);
    AttemptReserved(st, attempts, row, st'.product, next);
    assert LevelInv(start, st');
  }

  /** While a unit is left there is no failure to contradict, only reservations of other orders. */
  lemma OldStockEvents(paid: Outbox, st: S.Db, st': S.Db, order: nat)
    requires forall e :: e in st.outbox ==> StockEventInv(paid, st, st.outbox[e])
    requires !SoldOut(st.product) && |st.reservations| <= |st'.reservations|
    requires forall i :: 0 <= i < |st.reservations| ==>
      st'.reservations[i] == st.reservations[i] && st.reservations[i].order != order
    ensures forall e :: e in st.outbox ==> StockEventInv(paid, st', st.outbox[e])
    ensures forall e :: e in st.outbox ==> st.outbox[e].StockReserved? && st.outbox[e].order != order
  {
    forall e | e in st.outbox
      ensures StockEventInv(paid, st', st.outbox[e])
      ensures st.outbox[e].StockReserved? && st.outbox[e].order != order
    {
      assert StockEventInv(paid, st, st.outbox[e]);
    }
  }

  /** The event of a new reservation keeps every row announced, and announced once. */
  lemma ReservationAdded(rows: seq<S.Reservation>, outbox: Outbox, row: S.Reservation, next: EventId)
    requires next !in outbox && AtMostOne(outbox, StockReservedV1)
    requires forall i :: 0 <= i < |rows| ==> Has(outbox, StockReservedV1, rows[i].order)
    requires forall e :: e in outbox ==> outbox[e].order != row.order
    ensures var outbox', rows' := outbox[next := StockReserved(row.order, |rows|, S.UNIT)], rows + [row];
      && Grows(outbox, outbox') && AtMostOne(outbox', StockReservedV1)
      && forall i :: 0 <= i < |rows'| ==> Has(outbox', StockReservedV1, rows'[i].order)
  {
    var body := StockReserved(row.order, |rows|, S.UNIT);
    HasAdded(outbox, next, body);
    forall i | 0 <= i < |rows|
      ensures Has(outbox[next := body], StockReservedV1, rows[i].order)
    {
      HasGrows(outbox, outbox[next := body], StockReservedV1, rows[i].order);
    }
  }

  /** A unit is left, so nobody failed yet and the new reservation is the latest attempt. */
  lemma AttemptReserved(st: S.Db, attempts: seq<nat>, row: S.Reservation, product: S.Product, next: EventId)
    requires AttemptsInv(st, attempts) && !SoldOut(st.product) && next !in st.outbox
    requires forall i :: 0 <= i < |st.reservations| ==> st.reservations[i].order != row.order
    requires forall e :: e in st.outbox ==> !st.outbox[e].StockReservationFailed?
    ensures var st' := S.Db(product, st.reservations + [row],
                            st.outbox[next := StockReserved(row.order, |st.reservations|, S.UNIT)]);
      AttemptsInv(st', Noted(attempts, st'.outbox, next))
  {
    assert |attempts| == |st.reservations|;
    assert row.order !in attempts;
  }

  /** A failure while nothing is left contradicts neither the older events nor itself. */
  lemma FailureAdded(paid: Outbox, st: S.Db, order: nat, reason: StockFailure, next: EventId)
    requires forall e :: e in st.outbox ==> StockEventInv(paid, st, st.outbox[e])
    requires Has(paid, PaymentCompletedV1, order) && SoldOut(st.product)
    requires forall i :: 0 <= i < |st.reservations| ==> st.reservations[i].order != order
    ensures var st' := st.(outbox := st.outbox[next := StockReservationFailed(order, reason)]);
      forall e :: e in st'.outbox ==> StockEventInv(paid, st', st'.outbox[e])
  {
    var st' := st.(outbox := st.outbox[next := StockReservationFailed(order, reason)]);
    forall e | e in st'.outbox
      ensures StockEventInv(paid, st', st'.outbox[e])
    {
      assert e != next ==> StockEventInv(paid, st, st.outbox[e]);
    }
  }

  /** An event of another topic leaves every row announced, and announced once. */
  lemma StillAnnounced(rows: seq<S.Reservation>, outbox: Outbox, next: EventId, body: Event)
    requires next !in outbox && TopicOf(body) != StockReservedV1 && AtMostOne(outbox, StockReservedV1)
    requires forall i :: 0 <= i < |rows| ==> Has(outbox, StockReservedV1, rows[i].order)
    ensures AtMostOne(outbox[next := body], StockReservedV1)
    ensures forall i :: 0 <= i < |rows| ==> Has(outbox[next := body], StockReservedV1, rows[i].order)
  {
    HasAdded(outbox, next, body);
    forall i | 0 <= i < |rows|
      ensures Has(outbox[next := body], StockReservedV1, rows[i].order)
    {
      HasGrows(outbox, outbox[next := body], StockReservedV1, rows[i].order);
    }
  }

  lemma FailureCommitKeeps(start: S.Product, paid: Outbox, st: S.Db, attempts: seq<nat>, order: nat,
                           reason: StockFailure, next: EventId)
    requires StockInv(start, paid, st, attempts, next)
    requires Has(paid, PaymentCompletedV1, order) && SoldOut(st.product)
    requires forall i :: 0 <= i < |st.reservations| ==> st.reservations[i].order != order
    ensures var st' := st.(outbox := st.outbox[next := StockReservationFailed(order, reason)]);
      && StockInv(start, paid, st', Noted(attempts, st'.outbox, next), next + 1)
      && Grows(st.outbox, st'.outbox)
  {
    FailureAdded(paid, st, order, reason, next);
    StillAnnounced(st.reservations, st.outbox, next, StockReservationFailed(order, reason));
    AttemptFailed(st, attempts, order, reason, next);
  }

  lemma AttemptFailed(st: S.Db, attempts: seq<nat>, order: nat, reason: StockFailure, next: EventId)
    requires AttemptsInv(st, attempts) && SoldOut(st.product) && next !in st.outbox
    requires forall i :: 0 <= i < |st.reservations| ==> st.reservations[i].order != order
    ensures var st' := st.(outbox := st.outbox[next := StockReservationFailed(order, reason)]);
      AttemptsInv(st', Noted(attempts, st'.outbox, next))
  {
    var body := StockReservationFailed(order, reason);
    var outbox := st.outbox[next := body];
    var attempts' := Noted(attempts, outbox, next);
    HasAdded(st.outbox, next, body);
    forall i | |st.reservations| <= i < |attempts'|
      ensures Has(outbox, StockReservationFailedV1, attempts'[i])
    {
      if i < |attempts| {
        HasGrows(st.outbox, outbox, StockReservationFailedV1, attempts[i]);
      }
    }
  }

  lemma DeliverKeeps(reserved: Outbox, d: D.Db, id: EventId, next: EventId, fault: Fault)
    requires DeliveryInv(reserved, d, next) && AtMostOne(reserved, StockReservedV1)
    requires id in reserved && reserved[id].StockReserved?
    ensures var d' := D.OnStockReserved(d, id, reserved[id].order, next, fault).db;
      DeliveryInv(reserved, d', next + 1) && Grows(d.outbox, d'.outbox)
  {
    var order := reserved[id].order;
    var d' := D.OnStockReserved(d, id, order, next, fault).db;
    if |d'.rows| > |d.rows| {
      forall i | 0 <= i < |d.rows|
        ensures d.rows[i].order != order
      {
        assert DeliveryRowInv(reserved, d.rows[i]);
      }
      DeliveryAdded(reserved, d, next, D.Row(order, Key(order, id)));
    }
  }

  lemma DeliveryAnnounced(d: D.Db, next: EventId, row: D.Row)
    requires next !in d.outbox
    requires forall i :: 0 <= i < |d.rows| ==> Has(d.outbox, DeliveryStartedV1, d.rows[i].order)
    ensures var rows, outbox := d.rows + [row], d.outbox[next := DeliveryStarted(row.order, |d.rows|)];
      && Grows(d.outbox, outbox)
      && forall i :: 0 <= i < |rows| ==> Has(outbox, DeliveryStartedV1, rows[i].order)
  {
    var body := DeliveryStarted(row.order, |d.rows|);
    HasAdded(d.outbox, next, body);
    forall i | 0 <= i < |d.rows|
      ensures Has(d.outbox[next := body], DeliveryStartedV1, d.rows[i].order)
    {
      HasGrows(d.outbox, d.outbox[next := body], DeliveryStartedV1, d.rows[i].order);
    }
  }

  lemma DeliveryStaysUnique(d: D.Db, next: EventId, row: D.Row)
    requires next !in d.outbox && AtMostOne(d.outbox, DeliveryStartedV1)
    requires forall e :: e in d.outbox ==> DeliveryEventInv(d.rows, d.outbox[e])
    requires forall i :: 0 <= i < |d.rows| ==> d.rows[i].order != row.order
    ensures var rows, outbox := d.rows + [row], d.outbox[next := DeliveryStarted(row.order, |d.rows|)];
      && AtMostOne(outbox, DeliveryStartedV1)
      && forall e :: e in outbox ==> DeliveryEventInv(rows, outbox[e])
  {
    forall e | e in d.outbox
      ensures d.outbox[e].order != row.order
    {
      assert DeliveryEventInv(d.rows, d.outbox[e]);
    }
  }

  lemma DeliveryAdded(reserved: Outbox, d: D.Db, next: EventId, row: D.Row)
    requires DeliveryInv(reserved, d, next) && DeliveryRowInv(reserved, row)
    requires forall i :: 0 <= i < |d.rows| ==> d.rows[i].order != row.order
    ensures var d' := D.Db(d.rows + [row], d.outbox[next := DeliveryStarted(row.order, |d.rows|)]);
      DeliveryInv(reserved, d', next + 1) && Grows(d.outbox, d'.outbox)
  {
    DeliveryAnnounced(d, next, row);
    DeliveryStaysUnique(d, next, row);
  }

  // ---------------------------------------------------------------- each step keeps the whole

  ghost predicate OutboxesGrow(s: System, s': System) {
    && Grows(s.orders.db.outbox, s'.orders.db.outbox)
    && Grows(s.payment.db.outbox, s'.payment.db.outbox)
    && Grows(s.inventory.db.outbox, s'.inventory.db.outbox)
    && Grows(s.delivery.db.outbox, s'.delivery.db.outbox)
  }

  lemma BackedGrows(s: System, s': System, order: nat, status: O.OrderStatus)
    requires OutboxesGrow(s, s') && Backed(s, order, status)
    ensures Backed(s', order, status)
  {
    match status {
      case Pending =>
      case StockReserving => HasGrows(s.payment.db.outbox, s'.payment.db.outbox, PaymentCompletedV1, order);
      case DeliveryPreparing => HasGrows(s.inventory.db.outbox, s'.inventory.db.outbox, StockReservedV1, order);
      case Completed => HasGrows(s.delivery.db.outbox, s'.delivery.db.outbox, DeliveryStartedV1, order);
      case Canceled => HasGrows(s.payment.db.outbox, s'.payment.db.outbox, PaymentFailedV1, order);
      case Failed => HasGrows(s.inventory.db.outbox, s'.inventory.db.outbox, StockReservationFailedV1, order);
    }
  }

  lemma OrderStatusGrows(s: System, s': System)
    requires OrderStatusInv(s) && OutboxesGrow(s, s') && RowsExtend(s.orders.db.rows, s'.orders.db.rows)
    requires s'.log == s.log && s'.inflight == s.inflight
    ensures OrderStatusInv(s')
  {
    forall i | 0 <= i < |s.log|
      ensures Issued(s', s'.log[i])
    {
      assert Issued(s, s.log[i]);
    }
    forall i | 0 <= i < |s.inflight|
      ensures OpInv(s', s'.inflight[i])
    {
      assert OpInv(s, s.inflight[i]);
    }
    forall o | 0 <= o < |s'.orders.db.rows|
      ensures Backed(s', o, s'.orders.db.rows[o].status)
    {
      if o < |s.orders.db.rows| {
        BackedGrows(s, s', o, s.orders.db.rows[o].status);
      }
    }
  }

  lemma CreateStep(start: S.Product, s: System, cmd: O.Command, lookupFails: bool, fault: Fault)
    requires Inv(start, s)
    ensures Inv(start, Apply(s, Create(cmd, lookupFails, fault)))
    ensures OutboxesGrow(s, Apply(s, Create(cmd, lookupFails, fault)))
  {
    var s' := DoCreate(s, cmd, lookupFails, fault);
    CreateKeeps(s.orders.db, cmd, lookupFails, fault, s.next);
    PaymentInvGrows(s.orders.db.outbox, s.inventory.db.outbox, s'.orders.db.outbox, s.inventory.db.outbox,
                    s.payment.db, s.next, s'.next);
    StockInvGrows(start, s.payment.db.outbox, s.payment.db.outbox, s.inventory.db, s.attempts, s.next, s'.next);
    DeliveryInvGrows(s.inventory.db.outbox, s.inventory.db.outbox, s.delivery.db, s.next, s'.next);
    OrderStatusGrows(s, s');
  }

  lemma PaymentNodeKeeps(created: Outbox, stock: Outbox, node: Node<P.Db>, m: Message, next: EventId, redis: Redis,
                         w: P.World)
    requires PaymentInv(created, stock, node.db, next) && AtMostOne(created, OrderCreatedV1)
    requires m.body.OrderCreated? ==> m.id in created && created[m.id] == m.body
    requires m.body.StockReservationFailed? ==> m.id in stock && stock[m.id] == m.body
    ensures var node' := P.Receive(node, m, next, redis, w);
      PaymentInv(created, stock, node'.db, next + 1) && Grows(node.db.outbox, node'.db.outbox)
  {
    PaymentInvGrows(created, stock, created, stock, node.db, next, next + 1);
    match m.body {
      case OrderCreated(_, _, _) => ChargeKeeps(created, stock, node.db, m.id, next, w);
      case StockReservationFailed(order, _) =>
        assert TopicOf(stock[m.id]) == StockReservationFailedV1;
        RefundKeeps(created, stock, node.db, order, next, w.fault);
      case _ =>
    }
  }

  lemma PaymentDelivered(start: S.Product, s: System, m: Message, redis: Redis, w: P.World)
    requires Inv(start, s) && Issued(s, m)
    ensures Inv(start, DoPayment(s, m, redis, w))
    ensures OutboxesGrow(s, DoPayment(s, m, redis, w))
  {
    var s' := DoPayment(s, m, redis, w);
    var created, stock := s.orders.db.outbox, s.inventory.db.outbox;
    PaymentNodeKeeps(created, stock, s.payment, m, s.next, redis, w);
    StockInvGrows(start, s.payment.db.outbox, s'.payment.db.outbox, s.inventory.db, s.attempts, s.next, s'.next);
    DeliveryInvGrows(stock, stock, s.delivery.db, s.next, s'.next);
    OrderStatusGrows(s, s');
  }

  lemma PaymentStep(start: S.Product, s: System, at: nat, redis: Redis, w: P.World)
    requires Inv(start, s)
    ensures Inv(start, Apply(s, ToPayment(at, redis, w)))
    ensures OutboxesGrow(s, Apply(s, ToPayment(at, redis, w)))
  {
    if at < |s.log| {
      LogIsIssued(start, s, at);
      PaymentDelivered(start, s, s.log[at], redis, w);
    }
  }

  /** No other step touches the payment service's tables. */
  lemma OnlyDeliveriesToPayment(s: System, step: Step)
    ensures !(step.ToPayment? && step.at < |s.log|) ==> Apply(s, step).payment.db == s.payment.db
  {
  }

  /** A published refund is for an order without a reservation: the restore never fires. */
  lemma RefundedOrderHoldsNothing(start: S.Product, s: System, m: Message)
    requires Inv(start, s) && Issued(s, m) && m.body.PaymentRefunded?
    ensures S.FindReserved(s.inventory.db.reservations, m.body.order) < 0
  {
    var p := s.payment.db;
    assert PaymentEventInv(s.orders.db.outbox, p.rows, p.outbox[m.id]);
    assert PaymentRowInv(s.orders.db.outbox, s.inventory.db.outbox, p.rows[m.body.payment]);
    FailedOrderHoldsNothing(start, s, m.body.order);
  }

  lemma FailedOrderHoldsNothing(start: S.Product, s: System, order: nat)
    requires Inv(start, s) && Has(s.inventory.db.outbox, StockReservationFailedV1, order)
    ensures SoldOut(s.inventory.db.product)
    ensures forall i :: 0 <= i < |s.inventory.db.reservations| ==> s.inventory.db.reservations[i].order != order
    ensures Has(s.payment.db.outbox, PaymentCompletedV1, order)
  {
    var outbox := s.inventory.db.outbox;
    var e :| e in outbox && TopicOf(outbox[e]) == StockReservationFailedV1 && outbox[e].order == order;
    assert StockEventInv(s.payment.db.outbox, s.inventory.db, outbox[e]);
  }

  lemma InventoryNodeKeeps(start: S.Product, paid: Outbox, node: Node<S.Db>, attempts: seq<nat>, m: Message,
                           next: EventId, redis: Redis, fault: Fault)
    requires StockInv(start, paid, node.db, attempts, next) && AtMostOne(paid, PaymentCompletedV1)
    requires m.body.PaymentCompleted? ==> m.id in paid && paid[m.id] == m.body
    requires m.body.PaymentRefunded? ==> S.FindReserved(node.db.reservations, m.body.order) < 0
    ensures var node' := S.Receive(node, m, next, redis, fault);
      && StockInv(start, paid, node'.db, Noted(attempts, node'.db.outbox, next), next + 1)
      && Grows(node.db.outbox, node'.db.outbox)
  {
    StockInvGrows(start, paid, paid, node.db, attempts, next, next + 1);
    var node' := S.Receive(node, m, next, redis, fault);
    if m.body.PaymentCompleted? {
      ReserveKeeps(start, paid, node.db, attempts, m.id, next, fault);
    } else {
      assert node'.db == node.db;
    }
  }

  lemma AroundInventory(start: S.Product, s: System, s': System)
    requires Inv(start, s) && Grows(s.inventory.db.outbox, s'.inventory.db.outbox)
    requires s' == s.(inventory := s'.inventory, attempts := s'.attempts, next := s.next + 1)
    ensures OrdersInv(s'.orders.db, s'.next) && OutboxesGrow(s, s') && OrderStatusInv(s')
    ensures PaymentInv(s'.orders.db.outbox, s'.inventory.db.outbox, s'.payment.db, s'.next)
    ensures DeliveryInv(s'.inventory.db.outbox, s'.delivery.db, s'.next)
  {
    PaymentInvGrows(s.orders.db.outbox, s.inventory.db.outbox, s.orders.db.outbox, s'.inventory.db.outbox,
                    s.payment.db, s.next, s'.next);
    DeliveryInvGrows(s.inventory.db.outbox, s'.inventory.db.outbox, s.delivery.db, s.next, s'.next);
    OrderStatusGrows(s, s');
  }

  lemma InventoryDelivered(start: S.Product, s: System, m: Message, redis: Redis, fault: Fault)
    requires Inv(start, s)
    requires m.body.PaymentCompleted? ==> m.id in s.payment.db.outbox && s.payment.db.outbox[m.id] == m.body
    requires m.body.PaymentRefunded? ==> S.FindReserved(s.inventory.db.reservations, m.body.order) < 0
    ensures Inv(start, DoInventory(s, m, redis, fault))
    ensures OutboxesGrow(s, DoInventory(s, m, redis, fault))
  {
    InventoryNodeKeeps(start, s.payment.db.outbox, s.inventory, s.attempts, m, s.next, redis, fault);
    AroundInventory(start, s, DoInventory(s, m, redis, fault));
  }

  /** What an issued message means for the inventory service. */
  lemma IssuedToInventory(start: S.Product, s: System, m: Message)
    requires Inv(start, s) && Issued(s, m)
    ensures m.body.PaymentCompleted? ==> m.id in s.payment.db.outbox && s.payment.db.outbox[m.id] == m.body
    ensures m.body.PaymentRefunded? ==> S.FindReserved(s.inventory.db.reservations, m.body.order) < 0
  {
    if m.body.PaymentRefunded? {
      RefundedOrderHoldsNothing(start, s, m);
    }
  }

  lemma IssuedDelivered(start: S.Product, s: System, m: Message, redis: Redis, fault: Fault)
    requires Inv(start, s) && Issued(s, m)
    ensures Inv(start, DoInventory(s, m, redis, fault))
    ensures OutboxesGrow(s, DoInventory(s, m, redis, fault))
  {
    IssuedToInventory(start, s, m);
    InventoryDelivered(start, s, m, redis, fault);
  }

  lemma LogIsIssued(start: S.Product, s: System, at: nat)
    requires Inv(start, s) && at < |s.log|
    ensures Issued(s, s.log[at])
  {
  }

  lemma InventoryStep(start: S.Product, s: System, at: nat, redis: Redis, fault: Fault)
    requires Inv(start, s)
    ensures Inv(start, Apply(s, ToInventory(at, redis, fault)))
    ensures OutboxesGrow(s, Apply(s, ToInventory(at, redis, fault)))
  {
    if at < |s.log| {
      LogIsIssued(start, s, at);
      IssuedDelivered(start, s, s.log[at], redis, fault);
    }
  }

  lemma DeliveryNodeKeeps(reserved: Outbox, node: Node<D.Db>, m: Message, next: EventId, redis: Redis, fault: Fault)
    requires DeliveryInv(reserved, node.db, next) && AtMostOne(reserved, StockReservedV1)
    requires m.body.StockReserved? ==> m.id in reserved && reserved[m.id] == m.body
    ensures var node' := D.Receive(node, m, next, redis, fault);
      DeliveryInv(reserved, node'.db, next + 1) && Grows(node.db.outbox, node'.db.outbox)
  {
    DeliveryInvGrows(reserved, reserved, node.db, next, next + 1);
    if D.Consumes(m.body) {
      DeliverKeeps(reserved, node.db, m.id, next, fault);
    }
  }

  lemma DeliveryDelivered(start: S.Product, s: System, m: Message, redis: Redis, fault: Fault)
    requires Inv(start, s) && Issued(s, m)
    ensures Inv(start, DoDelivery(s, m, redis, fault))
    ensures OutboxesGrow(s, DoDelivery(s, m, redis, fault))
  {
    var s' := DoDelivery(s, m, redis, fault);
    var reserved := s.inventory.db.outbox;
    DeliveryNodeKeeps(reserved, s.delivery, m, s.next, redis, fault);
    PaymentInvGrows(s.orders.db.outbox, reserved, s.orders.db.outbox, reserved, s.payment.db, s.next, s'.next);
    StockInvGrows(start, s.payment.db.outbox, s.payment.db.outbox, s.inventory.db, s.attempts, s.next, s'.next);
    OrderStatusGrows(s, s');
  }

  lemma DeliveryStep(start: S.Product, s: System, at: nat, redis: Redis, fault: Fault)
    requires Inv(start, s)
    ensures Inv(start, Apply(s, ToDelivery(at, redis, fault)))
    ensures OutboxesGrow(s, Apply(s, ToDelivery(at, redis, fault)))
  {
    if at < |s.log| {
      LogIsIssued(start, s, at);
      DeliveryDelivered(start, s, s.log[at], redis, fault);
    }
  }

  /** The parts of the status invariant that need no more than grown outboxes and the old tables. */
  lemma StatusFrame(s: System, s': System)
    requires OrderStatusInv(s) && OutboxesGrow(s, s') && s'.orders.db.rows == s.orders.db.rows
    ensures forall i :: 0 <= i < |s.log| ==> Issued(s', s.log[i])
    ensures forall i :: 0 <= i < |s.inflight| ==> OpInv(s', s.inflight[i])
    ensures forall o :: 0 <= o < |s'.orders.db.rows| ==> Backed(s', o, s'.orders.db.rows[o].status)
  {
    OrderStatusGrows(s, s'.(log := s.log, inflight := s.inflight));
    var same := s'.(log := s.log, inflight := s.inflight);
    forall i | 0 <= i < |s.log|
      ensures Issued(s', s.log[i])
    {
      assert Issued(same, same.log[i]);
    }
    forall i | 0 <= i < |s.inflight|
      ensures OpInv(s', s.inflight[i])
    {
      assert OpInv(same, same.inflight[i]) && Issued(s', s.inflight[i].message);
    }
    forall o | 0 <= o < |s'.orders.db.rows|
      ensures Backed(s', o, s'.orders.db.rows[o].status)
    {
      assert Backed(same, o, s'.orders.db.rows[o].status);
    }
  }

  lemma ReadKeepsStatus(s: System, m: Message, checkFails: bool)
    requires OrderStatusInv(s) && Issued(s, m)
    ensures OrderStatusInv(DoOrderRead(s, m, checkFails))
  {
    var s' := DoOrderRead(s, m, checkFails);
    StatusFrame(s, s');
    assert Issued(s', m);
  }

  /** A step of the order service's handlers, which changes no other service's tables and no outbox. */
  lemma SameEvents(start: S.Product, s: System, s': System)
    requires Inv(start, s) && OrderStatusInv(s') && OrdersInv(s'.orders.db, s'.next)
    requires s'.orders.db.outbox == s.orders.db.outbox && s'.payment.db == s.payment.db
    requires s'.inventory.db == s.inventory.db && s'.delivery.db == s.delivery.db
    requires s'.attempts == s.attempts && s'.next == s.next
    ensures Inv(start, s') && OutboxesGrow(s, s')
  {
  }

  lemma SameTables(start: S.Product, s: System, s': System)
    requires Inv(start, s) && OrderStatusInv(s') && s'.orders.db == s.orders.db && s'.payment.db == s.payment.db
    requires s'.inventory.db == s.inventory.db && s'.delivery.db == s.delivery.db
    requires s'.attempts == s.attempts && s'.next == s.next
    ensures Inv(start, s') && OutboxesGrow(s, s')
  {
    SameEvents(start, s, s');
  }

  lemma OrderReads(start: S.Product, s: System, m: Message, checkFails: bool)
    requires Inv(start, s) && Issued(s, m)
    ensures Inv(start, DoOrderRead(s, m, checkFails))
    ensures OutboxesGrow(s, DoOrderRead(s, m, checkFails))
  {
    ReadKeepsStatus(s, m, checkFails);
    SameTables(start, s, DoOrderRead(s, m, checkFails));
  }

  lemma ReadStep(start: S.Product, s: System, at: nat, checkFails: bool)
    requires Inv(start, s)
    ensures Inv(start, Apply(s, OrderRead(at, checkFails)))
    ensures OutboxesGrow(s, Apply(s, OrderRead(at, checkFails)))
  {
    if at < |s.log| {
      LogIsIssued(start, s, at);
      OrderReads(start, s, s.log[at], checkFails);
    }
  }

  lemma IssuedMeansHas(s: System, m: Message)
    requires Issued(s, m)
    ensures Has(OutboxOf(s, Producer(TopicOf(m.body))), TopicOf(m.body), m.body.order)
  {
  }

  lemma NoDeliveryFailed(reserved: Outbox, d: D.Db, next: EventId, id: EventId)
    requires DeliveryInv(reserved, d, next) && id in d.outbox
    ensures d.outbox[id].DeliveryStarted?
  {
    assert DeliveryEventInv(d.rows, d.outbox[id]);
  }

  /** Whatever fails an order is the stock service's event. */
  lemma FailureIsOfStock(s: System, m: Message)
    requires DeliveryInv(s.inventory.db.outbox, s.delivery.db, s.next) && Issued(s, m)
    ensures !m.body.DeliveryFailed?
  {
    if m.id in s.delivery.db.outbox {
      NoDeliveryFailed(s.inventory.db.outbox, s.delivery.db, s.next, m.id);
    }
  }

  lemma BackedByEvent(s: System, m: Message, seen: O.OrderStatus)
    requires Has(OutboxOf(s, Producer(TopicOf(m.body))), TopicOf(m.body), m.body.order)
    requires !m.body.DeliveryFailed? && O.Target(m.body, seen).Write?
    ensures Backed(s, m.body.order, O.Target(m.body, seen).status)
  {
  }

  /** What a handler writes is backed by the very event it handles. */
  lemma TargetBacked(start: S.Product, s: System, m: Message, seen: O.OrderStatus)
    requires Inv(start, s) && Issued(s, m) && O.Target(m.body, seen).Write?
    ensures Backed(s, m.body.order, O.Target(m.body, seen).status)
  {
    IssuedMeansHas(s, m);
    FailureIsOfStock(s, m);
    BackedByEvent(s, m, seen);
  }

  /** Rows changed by one compare-and-set move their version, so every older read goes stale. */
  lemma CasKeepsOp(s: System, s': System, op: O.Op, order: nat, status: O.OrderStatus, version: nat)
    requires OpInv(s, op) && s'.orders.db.rows == O.Cas(s.orders.db.rows, order, status, version)
    requires OutboxesGrow(s, s')
    ensures OpInv(s', op)
  {
    assert Issued(s', op.message);
  }

  lemma WriteKeepsOrders(o: O.Db, op: O.Op, next: EventId)
    requires OrdersInv(o, next)
    ensures OrdersInv(o.(rows := O.Finish(o.rows, op)), next)
  {
    forall e | e in o.outbox
      ensures CreatedInv(O.Finish(o.rows, op), o.outbox[e])
    {
      assert CreatedInv(o.rows, o.outbox[e]);
    }
  }

  lemma WriteKeepsStatus(s: System, i: nat, reserveFails: bool)
    requires OrderStatusInv(s) && i < |s.inflight|
    requires var op := s.inflight[i];
      var target := O.Target(op.message.body, op.seen);
      target.Write? ==> Backed(s, op.message.body.order, target.status)
    ensures OrderStatusInv(DoOrderWrite(s, i, reserveFails))
  {
    var s' := DoOrderWrite(s, i, reserveFails);
    var op := s.inflight[i];
    assert OpInv(s, op);
    var target := O.Target(op.message.body, op.seen);
    forall o | 0 <= o < |s'.orders.db.rows|
      ensures Backed(s', o, s'.orders.db.rows[o].status)
    {
      BackedGrows(s, s', o, s'.orders.db.rows[o].status);
    }
    forall k | 0 <= k < |s'.inflight|
      ensures OpInv(s', s'.inflight[k])
    {
      var other := if k < i then s.inflight[k] else s.inflight[k + 1];
      assert s'.inflight[k] == other && OpInv(s, other);
      if target.Write? {
        CasKeepsOp(s, s', other, op.message.body.order, target.status, op.version);
      }
    }
    forall k | 0 <= k < |s.log|
      ensures Issued(s', s'.log[k])
    {
      assert Issued(s, s.log[k]);
    }
  }

  lemma OpBacked(start: S.Product, s: System, op: O.Op)
    requires Inv(start, s) && OpInv(s, op)
    ensures O.Target(op.message.body, op.seen).Write? ==>
              Backed(s, op.message.body.order, O.Target(op.message.body, op.seen).status)
  {
    if O.Target(op.message.body, op.seen).Write? {
      TargetBacked(start, s, op.message, op.seen);
    }
  }

  lemma OrderWritten(start: S.Product, s: System, i: nat, reserveFails: bool)
    requires Inv(start, s) && i < |s.inflight|
    ensures Inv(start, DoOrderWrite(s, i, reserveFails))
    ensures OutboxesGrow(s, DoOrderWrite(s, i, reserveFails))
  {
    assert OpInv(s, s.inflight[i]);
    OpBacked(start, s, s.inflight[i]);
    WriteKeepsStatus(s, i, reserveFails);
    WriteKeepsOrders(s.orders.db, s.inflight[i], s.next);
    SameEvents(start, s, DoOrderWrite(s, i, reserveFails));
  }

  lemma WriteApplied(s: System, i: nat, reserveFails: bool)
    ensures Apply(s, OrderWrite(i, reserveFails)) == if i < |s.inflight| then DoOrderWrite(s, i, reserveFails) else s
  {
  }

  lemma WriteStep(start: S.Product, s: System, i: nat, reserveFails: bool)
    requires Inv(start, s)
    ensures Inv(start, Apply(s, OrderWrite(i, reserveFails)))
    ensures OutboxesGrow(s, Apply(s, OrderWrite(i, reserveFails)))
  {
    WriteApplied(s, i, reserveFails);
    if i < |s.inflight| {
      OrderWritten(start, s, i, reserveFails);
    }
  }

  lemma PublishKeepsStatus(s: System, m: Message)
    requires OrderStatusInv(s) && Issued(s, m)
    ensures OrderStatusInv(s.(log := s.log + [m]))
  {
    var s' := s.(log := s.log + [m]);
    StatusFrame(s, s');
    assert Issued(s', m);
  }

  lemma PublishStep(start: S.Product, s: System, party: Party, id: EventId)
    requires Inv(start, s)
    ensures Inv(start, Apply(s, Publish(party, id)))
    ensures OutboxesGrow(s, Apply(s, Publish(party, id)))
  {
    var outbox := OutboxOf(s, party);
    if id in outbox {
      assert Producer(TopicOf(outbox[id])) == party;
      PublishKeepsStatus(s, Message(id, outbox[id]));
      SameTables(start, s, s.(log := s.log + [Message(id, outbox[id])]));
    }
  }

  lemma CrashKeepsStatus(s: System, i: nat)
    requires OrderStatusInv(s) && i < |s.inflight|
    ensures OrderStatusInv(s.(inflight := Without(s.inflight, i)))
  {
    var s' := s.(inflight := Without(s.inflight, i));
    StatusFrame(s, s');
    forall k | 0 <= k < |s'.inflight|
      ensures OpInv(s', s'.inflight[k])
    {
      assert s'.inflight[k] == if k < i then s.inflight[k] else s.inflight[k + 1];
    }
  }

  lemma CrashStep(start: S.Product, s: System, i: nat)
    requires Inv(start, s)
    ensures Inv(start, Apply(s, OrderCrash(i)))
    ensures OutboxesGrow(s, Apply(s, OrderCrash(i)))
  {
    if i < |s.inflight| {
      CrashKeepsStatus(s, i);
      SameTables(start, s, s.(inflight := Without(s.inflight, i)));
    }
  }

  lemma ExpireKeepsTables(s: System, party: Party, id: EventId)
    requires OrderStatusInv(s)
    ensures var s' := DoExpire(s, party, id);
      && OrderStatusInv(s') && s'.orders.db == s.orders.db && s'.payment.db == s.payment.db
      && s'.inventory.db == s.inventory.db && s'.delivery.db == s.delivery.db
      && s'.attempts == s.attempts && s'.next == s.next
  {
    OrderStatusGrows(s, DoExpire(s, party, id));
  }

  lemma ExpireStep(start: S.Product, s: System, party: Party, id: EventId)
    requires Inv(start, s)
    ensures Inv(start, Apply(s, Expire(party, id)))
    ensures OutboxesGrow(s, Apply(s, Expire(party, id)))
  {
    ExpireKeepsTables(s, party, id);
    SameTables(start, s, DoExpire(s, party, id));
  }

  /** Whatever the world does next, the invariant survives. */
  lemma InvStep(start: S.Product, s: System, step: Step)
    requires Inv(start, s)
    ensures Inv(start, Apply(s, step))
    ensures OutboxesGrow(s, Apply(s, step))
  {
    match step {
      case Create(cmd, lookupFails, fault) => CreateStep(start, s, cmd, lookupFails, fault);
      case Publish(party, id) => PublishStep(start, s, party, id);
      case ToPayment(at, redis, w) => PaymentStep(start, s, at, redis, w);
      case ToInventory(at, redis, fault) => InventoryStep(start, s, at, redis, fault);
      case ToDelivery(at, redis, fault) => DeliveryStep(start, s, at, redis, fault);
      case OrderRead(at, checkFails) => ReadStep(start, s, at, checkFails);
      case OrderWrite(op, reserveFails) => WriteStep(start, s, op, reserveFails);
      case OrderCrash(op) => CrashStep(start, s, op);
      case Expire(party, id) => ExpireStep(start, s, party, id);
    }
  }

  /** A database that can be started from: the product may be missing, its quantity may not be negative. */
  predicate ValidStart(start: S.Product) {
    start.Found? ==> start.level.available >= 0
  }

  lemma GrowsTransitive(a: Outbox, b: Outbox, c: Outbox)
    requires Grows(a, b) && Grows(b, c)
    ensures Grows(a, c)
  {
  }

  lemma OutboxesGrowTransitive(s: System, t: System, u: System)
    requires OutboxesGrow(s, t) && OutboxesGrow(t, u)
    ensures OutboxesGrow(s, u)
  {
    GrowsTransitive(s.orders.db.outbox, t.orders.db.outbox, u.orders.db.outbox);
    GrowsTransitive(s.payment.db.outbox, t.payment.db.outbox, u.payment.db.outbox);
    GrowsTransitive(s.inventory.db.outbox, t.inventory.db.outbox, u.inventory.db.outbox);
    GrowsTransitive(s.delivery.db.outbox, t.delivery.db.outbox, u.delivery.db.outbox);
  }

  /** Every run keeps the invariant and never withdraws an event. */
  lemma {:induction false} InvContinues(start: S.Product, s: System, steps: seq<Step>)
    requires Inv(start, s)
    ensures Inv(start, Run(s, steps))
    ensures OutboxesGrow(s, Run(s, steps))
    decreases |steps|
  {
    if steps != [] {
      var t := Run(s, steps[..|steps| - 1]);
      InvContinues(start, s, steps[..|steps| - 1]);
      InvStep(start, t, steps[|steps| - 1]);
      OutboxesGrowTransitive(s, t, Run(s, steps));
    }
  }

  lemma InvInit(start: S.Product)
    requires ValidStart(start)
    ensures Inv(start, Init(start))
  {
  }

  lemma {:induction false} InvRun(start: S.Product, steps: seq<Step>)
    requires ValidStart(start)
    ensures Inv(start, Run(Init(start), steps))
  {
    InvInit(start);
    InvContinues(start, Init(start), steps);
  }
}

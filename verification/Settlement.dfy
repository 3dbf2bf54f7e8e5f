/**
 All-or-nothing settlement: a fault-free run in which every event is published once and every subscriber
 handles every event once stops after a bounded amount of work, with the tables of every order all or nothing.
 The order's status tells which, if and only if the order service heard the order's events in time.
 */
module Settlement {
  import opened Events
  import opened Idempotency
  import opened Saga
  import opened Guarantees
  import opened Recording
  import opened Workflow
  import O = Orders
  import P = Payments
  import S = Stock
  import D = Deliveries

  /** The saga, which subscriber has handled which message, and which messages the order service heard in time. */
  datatype Clean = Clean(s: System, handled: Handled, timely: set<Message>)

  function Begin(product: S.Product): Clean {
    Clean(Init(product), {}, {})
  }

  function Sent(outbox: Outbox): set<Message> {
    set e | e in outbox :: Message(e, outbox[e])
  }

  function AllSent(s: System): set<Message> {
    Sent(s.orders.db.outbox) + Sent(s.payment.db.outbox) + Sent(s.inventory.db.outbox) + Sent(s.delivery.db.outbox)
  }

  /** Place an order, publish a row, or let one subscriber handle one published message. */
  datatype Act =
    | Place(cmd: O.Command)
    | Send(party: Party, id: EventId)
    | Give(party: Party, at: nat, redis: Redis, approve: bool)

  /** The steps of the saga that one handling amounts to; the order service reads and writes in one go. */
  function Hand(s: System, party: Party, at: nat, redis: Redis, approve: bool): System {
    match party
    case OrderParty => Apply(Apply(s, OrderRead(at, redis.checkFails)), OrderWrite(|s.inflight|, redis.reserveFails))
    case PaymentParty => Apply(s, ToPayment(at, redis, P.World(approve, false, NoFault)))
    case InventoryParty => Apply(s, ToInventory(at, redis, NoFault))
    case DeliveryParty => Apply(s, ToDelivery(at, redis, NoFault))
  }

  /** The order service has heard of the order's event of this topic in time. */
  ghost predicate Heard(timely: set<Message>, topic: Topic, order: nat) {
    exists m :: m in timely && TopicOf(m.body) == topic && m.body.order == order
  }

  /** The topic the order service must have heard of for this event to find the status it is guarded by. */
  function Prior(body: Event): set<Topic> {
    match body
    case StockReserved(_, _, _) => {PaymentCompletedV1}
    case DeliveryStarted(_, _) => {StockReservedV1}
    case _ => {}
  }

  ghost predicate Ready(timely: set<Message>, body: Event) {
    forall t :: t in Prior(body) ==> Heard(timely, t, body.order)
  }

  /** An event is heard in time when its prior was heard in time before it. */
  ghost function Noted(timely: set<Message>, party: Party, m: Message): set<Message> {
    if party.OrderParty? && Ready(timely, m.body) then timely + {m} else timely
  }

  ghost function Given(c: Clean, party: Party, at: nat, redis: Redis, approve: bool): Clean
    requires at < |c.s.log|
  {
    var m := c.s.log[at];
    Clean(Hand(c.s, party, at, redis, approve), c.handled + {(party, m)}, Noted(c.timely, party, m))
  }

  ghost function Do(c: Clean, act: Act): Clean {
    match act
    case Place(cmd) => c.(s := Apply(c.s, Create(cmd, false, NoFault)))
    case Send(party, id) => c.(s := Apply(c.s, Publish(party, id)))
    case Give(party, at, redis, approve) =>
      if at < |c.s.log| then Given(c, party, at, redis, approve) else c
  }

  /** The party reads this topic and has not handled this message. */
  predicate Givable(c: Clean, party: Party, at: nat) {
    at < |c.s.log| && Subscribes(party, c.s.log[at].body) && (party, c.s.log[at]) !in c.handled
  }

  predicate Enabled(c: Clean, act: Act) {
    match act
    case Place(_) => true
    case Send(party, id) => id in OutboxOf(c.s, party) && Message(id, OutboxOf(c.s, party)[id]) !in c.s.log
    case Give(party, at, _, _) => Givable(c, party, at)
  }

  ghost function Play(c: Clean, acts: seq<Act>): Clean
    decreases |acts|
  {
    if acts == [] then c else Do(Play(c, acts[..|acts| - 1]), acts[|acts| - 1])
  }

  /** Every act of the run is enabled when its turn comes. */
  ghost predicate Fair(start: S.Product, acts: seq<Act>)
    decreases |acts|
  {
    acts == [] || (Fair(start, acts[..|acts| - 1]) && Enabled(Play(Begin(start), acts[..|acts| - 1]), acts[|acts| - 1]))
  }

  // ------------------------------------------------ the invariant of clean runs

  function DoneOf(s: System, party: Party): set<EventId> {
    match party
    case OrderParty => s.orders.done
    case PaymentParty => s.payment.done
    case InventoryParty => s.inventory.done
    case DeliveryParty => s.delivery.done
  }

  ghost predicate WasHandled(handled: Handled, party: Party, id: EventId) {
    exists m :: (party, m) in handled && m.id == id
  }

  /** The topics an order has heard of when it has this status. */
  function Path(status: O.OrderStatus): set<Topic> {
    match status
    case Pending => {}
    case PaymentProcessing => {}
    case StockReserving => {PaymentCompletedV1}
    case DeliveryPreparing => {PaymentCompletedV1, StockReservedV1}
    case Completed => {PaymentCompletedV1, StockReservedV1, DeliveryStartedV1}
    case Canceled => {PaymentFailedV1}
    case Failed => {PaymentCompletedV1, StockReservationFailedV1}
  }

  /** A FAILED order has heard of the failure; any other status tells exactly what was heard in time. */
  ghost predicate StatusTells(timely: set<Message>, status: O.OrderStatus, order: nat) {
    if status.Failed? then Heard(timely, StockReservationFailedV1, order)
    else forall t: Topic :: Heard(timely, t, order) <==> t in Path(status)
  }

  ghost predicate StatusesTell(timely: set<Message>, rows: seq<O.Row>) {
    forall o :: 0 <= o < |rows| ==> StatusTells(timely, rows[o].status, o)
  }

  /** Only an event that has a prior can be heard too early. */
  ghost predicate TimelyOrEarly(handled: Handled, timely: set<Message>) {
    && (forall m :: m in timely ==> (OrderParty, m) in handled)
    && (forall m :: (OrderParty, m) in handled && Prior(m.body) == {} ==> m in timely)
  }

  /** The stores remember nothing but handled messages. */
  ghost predicate Remembered(handled: Handled, s: System) {
    forall party, id :: id in DoneOf(s, party) ==> WasHandled(handled, party, id)
  }

  ghost predicate Orderly(c: Clean) {
    && c.s.inflight == []
    && Flow(AllSent(c.s), c.handled, |c.s.orders.db.rows|, c.s.next)
    && OrdersAnnounced(c.s.orders.db)
    && PaymentsAnnounced(c.s.payment.db)
    && Remembered(c.handled, c.s)
    && TimelyOrEarly(c.handled, c.timely)
    && StatusesTell(c.timely, c.s.orders.db.rows)
  }

  ghost predicate CleanInv(start: S.Product, c: Clean) {
    Inv(start, c.s) && Orderly(c)
  }

  lemma SentAdded(outbox: Outbox, id: EventId, body: Event)
    requires id !in outbox
    ensures Sent(outbox[id := body]) == Sent(outbox) + {Message(id, body)}
  {
    var outbox' := outbox[id := body];
    forall m | m in Sent(outbox) + {Message(id, body)}
      ensures m in Sent(outbox')
    {
      assert m.id in outbox' && outbox'[m.id] == m.body;
    }
  }

  lemma SentIsIssued(start: S.Product, s: System, m: Message)
    requires Inv(start, s)
    ensures m in AllSent(s) <==> Issued(s, m)
  {
    var party := Producer(TopicOf(m.body));
    assert m in Sent(OutboxOf(s, party)) <==> Issued(s, m);
    forall p: Party | m in Sent(OutboxOf(s, p))
      ensures p == party
    {
      assert m.id in OutboxOf(s, p);
    }
  }

  /** The message behind a Has. */
  lemma SentOf(s: System, party: Party, topic: Topic, order: nat) returns (m: Message)
    requires Has(OutboxOf(s, party), topic, order)
    ensures m in AllSent(s) && TopicOf(m.body) == topic && m.body.order == order
  {
    var outbox := OutboxOf(s, party);
    var e :| e in outbox && TopicOf(outbox[e]) == topic && outbox[e].order == order;
    m := Message(e, outbox[e]);
    assert m in Sent(outbox);
  }

  /** The store only remembers what was handled, so the check never stops a first handling. */
  lemma DoneWasHandled(start: S.Product, c: Clean, party: Party, m: Message)
    requires CleanInv(start, c) && m in AllSent(c.s) && m.id in DoneOf(c.s, party)
    ensures (party, m) in c.handled
  {
    assert WasHandled(c.handled, party, m.id);
    var n :| (party, n) in c.handled && n.id == m.id;
    assert (party, n).1 in AllSent(c.s);
  }

  // ------------------------------------------------ what each handler does the first time

  lemma NothingAtDepth(start: S.Product, c: Clean, party: Party, m: Message, body: Event, owner: Party)
    requires CleanInv(start, c) && m in AllSent(c.s) && (party, m) !in c.handled
    requires Answers(party, m.body) && Follows(m.body, body)
    ensures !Has(OutboxOf(c.s, owner), TopicOf(body), body.order)
  {
    if Has(OutboxOf(c.s, owner), TopicOf(body), body.order) {
      var r := SentOf(c.s, owner, TopicOf(body), body.order);
      SameTopic(r.body, body);
      RivalMeansHandled(AllSent(c.s), c.handled, |c.s.orders.db.rows|, c.s.next, party, m, body, r);
    }
  }

  lemma SameTopic(a: Event, b: Event)
    requires TopicOf(a) == TopicOf(b)
    ensures Depth(a) == Depth(b)
  {
  }

  /** The first order.created finds no payment under its key. */
  lemma FirstCharge(start: S.Product, c: Clean, m: Message)
    requires CleanInv(start, c) && m in AllSent(c.s) && m.body.OrderCreated? && (PaymentParty, m) !in c.handled
    ensures !P.HasKey(c.s.payment.db.rows, Key(m.body.order, m.id))
  {
    var db := c.s.payment.db;
    NothingAtDepth(start, c, PaymentParty, m, PaymentCompleted(m.body.order, 0, 0), PaymentParty);
    forall i | 0 <= i < |db.rows|
      ensures db.rows[i].key != Key(m.body.order, m.id)
    {
      assert PaymentRowInv(c.s.orders.db.outbox, c.s.inventory.db.outbox, db.rows[i]);
      assert PaymentAnnounced(db.outbox, db.rows[i]);
    }
  }

  /** An order whose stock failed has a payment. */
  lemma FailedOrderPaid(start: S.Product, s: System, order: nat)
    requires Inv(start, s) && Has(s.inventory.db.outbox, StockReservationFailedV1, order)
    ensures P.FindByOrder(s.payment.db.rows, order) >= 0
  {
    FailedOrderHoldsNothing(start, s, order);
    var outbox := s.payment.db.outbox;
    var e :| e in outbox && TopicOf(outbox[e]) == PaymentCompletedV1 && outbox[e].order == order;
    assert PaymentEventInv(s.orders.db.outbox, s.payment.db.rows, outbox[e]);
  }

  /** The first stock.reservation_failed finds a payment that is not refunded yet. */
  lemma FirstRefund(start: S.Product, c: Clean, m: Message)
    requires CleanInv(start, c) && m in AllSent(c.s) && m.body.StockReservationFailed?
    requires (PaymentParty, m) !in c.handled
    ensures var i := P.FindByOrder(c.s.payment.db.rows, m.body.order);
      i >= 0 && !c.s.payment.db.rows[i].status.Refunded?
  {
    var db, order := c.s.payment.db, m.body.order;
    SentIsIssued(start, c.s, m);
    assert TopicOf(m.body) == StockReservationFailedV1;
    FailedOrderPaid(start, c.s, order);
    var i := P.FindByOrder(db.rows, order);
    NothingAtDepth(start, c, PaymentParty, m, PaymentRefunded(order, 0, 0), PaymentParty);
    assert PaymentAnnounced(db.outbox, db.rows[i]);
  }

  /** The first payment.completed finds no reservation under its key. */
  lemma FirstReserve(start: S.Product, c: Clean, m: Message)
    requires CleanInv(start, c) && m in AllSent(c.s) && m.body.PaymentCompleted? && (InventoryParty, m) !in c.handled
    ensures !S.HasKey(c.s.inventory.db.reservations, Key(m.body.order, m.id))
  {
    var db := c.s.inventory.db;
    NothingAtDepth(start, c, InventoryParty, m, StockReserved(m.body.order, 0, 0), InventoryParty);
    forall i | 0 <= i < |db.reservations|
      ensures db.reservations[i].key != Key(m.body.order, m.id)
    {
      assert ReservationInv(c.s.payment.db.outbox, db.reservations[i]);
      assert Has(db.outbox, StockReservedV1, db.reservations[i].order);
    }
  }

  /** The first stock.reserved finds no delivery under its key. */
  lemma FirstDelivery(start: S.Product, c: Clean, m: Message)
    requires CleanInv(start, c) && m in AllSent(c.s) && m.body.StockReserved? && (DeliveryParty, m) !in c.handled
    ensures !D.HasKey(c.s.delivery.db.rows, Key(m.body.order, m.id))
  {
    var db := c.s.delivery.db;
    NothingAtDepth(start, c, DeliveryParty, m, DeliveryStarted(m.body.order, 0), DeliveryParty);
    forall i | 0 <= i < |db.rows|
      ensures db.rows[i].key != Key(m.body.order, m.id)
    {
      assert DeliveryRowInv(c.s.inventory.db.outbox, db.rows[i]);
      assert Has(db.outbox, DeliveryStartedV1, db.rows[i].order);
    }
  }

  /** What the gateway decides for the order. */
  function VerdictOf(db: P.Db, order: nat, amount: int, approve: bool): Event {
    if approve then PaymentCompleted(order, |db.rows|, amount) else PaymentFailed(order)
  }

  lemma ChargeAnswers(db: P.Db, id: EventId, order: nat, amount: int, next: EventId, approve: bool)
    returns (body: Event)
    requires PaymentsAnnounced(db) && next !in db.outbox && !P.HasKey(db.rows, Key(order, id))
    ensures body == VerdictOf(db, order, amount, approve)
    ensures var db' := P.OnOrderCreated(db, id, order, amount, next, P.World(approve, false, NoFault)).db;
      db'.outbox == db.outbox[next := body] && PaymentsAnnounced(db')
  {
    body := VerdictOf(db, order, amount, approve);
    PaymentsAnnouncedGrow(db, next, body);
    HasAdded(db.outbox, next, body);
  }

  lemma RefundAnswers(db: P.Db, order: nat, next: EventId) returns (body: Event)
    requires PaymentsAnnounced(db) && next !in db.outbox
    requires P.FindByOrder(db.rows, order) >= 0 && !db.rows[P.FindByOrder(db.rows, order)].status.Refunded?
    ensures body.order == order && body.PaymentRefunded?
    ensures var db' := P.OnStockReservationFailed(db, order, next, NoFault).db;
      db'.outbox == db.outbox[next := body] && PaymentsAnnounced(db')
  {
    var i := P.FindByOrder(db.rows, order);
    body := PaymentRefunded(order, i, db.rows[i].amount);
    PaymentsAnnouncedGrow(db, next, body);
    HasAdded(db.outbox, next, body);
  }

  lemma PaymentAnswers(start: S.Product, c: Clean, m: Message, approve: bool) returns (body: Event)
    requires CleanInv(start, c) && m in AllSent(c.s) && P.Consumes(m.body) && (PaymentParty, m) !in c.handled
    ensures Follows(m.body, body)
    ensures var db' := P.Handle(c.s.payment.db, m, c.s.next, P.World(approve, false, NoFault)).db;
      db'.outbox == c.s.payment.db.outbox[c.s.next := body] && PaymentsAnnounced(db')
  {
    match m.body {
      case OrderCreated(order, amount, _) =>
        FirstCharge(start, c, m);
        body := ChargeAnswers(c.s.payment.db, m.id, order, amount, c.s.next, approve);
      case StockReservationFailed(order, _) =>
        FirstRefund(start, c, m);
        body := RefundAnswers(c.s.payment.db, order, c.s.next);
    }
  }

  /** What the stock allows for the order. */
  function OutcomeOf(db: S.Db, order: nat): Event {
    if db.product.Missing? then StockReservationFailed(order, ProductNotFound)
    else if db.product.level.available < 1 then StockReservationFailed(order, InsufficientStock)
    else StockReserved(order, |db.reservations|, 1)
  }

  lemma StockAnswers(db: S.Db, id: EventId, order: nat, next: EventId) returns (body: Event)
    requires !S.HasKey(db.reservations, Key(order, id))
    ensures body == OutcomeOf(db, order)
    ensures S.OnPaymentCompleted(db, id, order, next, NoFault).db.outbox == db.outbox[next := body]
  {
    body := OutcomeOf(db, order);
  }

  lemma ShipAnswers(db: D.Db, id: EventId, order: nat, next: EventId)
    requires !D.HasKey(db.rows, Key(order, id))
    ensures var db' := D.OnStockReserved(db, id, order, next, NoFault).db;
      db'.outbox == db.outbox[next := DeliveryStarted(order, |db.rows|)]
  {
  }

  /** The first order.created is answered as the gateway answers. */
  lemma VerdictIsTheGateways(start: S.Product, c: Clean, at: nat, redis: Redis, approve: bool)
    requires CleanInv(start, c) && Givable(c, PaymentParty, at) && c.s.log[at].body.OrderCreated?
    ensures var p, body := c.s.payment.db, c.s.log[at].body;
      Given(c, PaymentParty, at, redis, approve).s.payment.db.outbox ==
      p.outbox[c.s.next := VerdictOf(p, body.order, body.amount, approve)]
  {
    var m := c.s.log[at];
    PublishedIsSent(start, c.s, at);
    FirstHandling(start, c, PaymentParty, m);
    FirstCharge(start, c, m);
    NextIsUnused(start, c.s);
    assert c.s.next !in OutboxOf(c.s, PaymentParty);
    PaymentHand(c.s, at, redis, approve);
    var body := ChargeAnswers(c.s.payment.db, m.id, m.body.order, m.body.amount, c.s.next, approve);
  }

  /** The first payment.completed is answered as the stock allows. */
  lemma OutcomeIsTheStocks(start: S.Product, c: Clean, at: nat, redis: Redis, approve: bool)
    requires CleanInv(start, c) && Givable(c, InventoryParty, at) && c.s.log[at].body.PaymentCompleted?
    ensures Given(c, InventoryParty, at, redis, approve).s.inventory.db.outbox ==
            c.s.inventory.db.outbox[c.s.next := OutcomeOf(c.s.inventory.db, c.s.log[at].body.order)]
  {
    var m := c.s.log[at];
    PublishedIsSent(start, c.s, at);
    FirstHandling(start, c, InventoryParty, m);
    FirstReserve(start, c, m);
    InventoryHand(c.s, at, redis, approve);
    var body := StockAnswers(c.s.inventory.db, m.id, m.body.order, c.s.next);
  }

  // ------------------------------------------------ every act of a clean run keeps the invariant

  lemma DoneStays(c: Clean, s': System, party: Party, m: Message)
    requires Remembered(c.handled, c.s)
    requires forall p, id :: id in DoneOf(s', p) ==> id in DoneOf(c.s, p) || (p == party && id == m.id)
    ensures Remembered(c.handled + {(party, m)}, s')
  {
    forall p, id | id in DoneOf(s', p)
      ensures WasHandled(c.handled + {(party, m)}, p, id)
    {
      if id in DoneOf(c.s, p) {
        assert WasHandled(c.handled, p, id);
        var n :| (p, n) in c.handled && n.id == id;
        assert (p, n) in c.handled + {(party, m)};
      } else {
        assert (party, m) in c.handled + {(party, m)};
      }
    }
  }

  predicate OthersKeep(s: System, s': System, party: Party) {
    && (party.OrderParty? || s'.orders.db.outbox == s.orders.db.outbox)
    && (party.PaymentParty? || s'.payment == s.payment)
    && (party.InventoryParty? || s'.inventory.db.outbox == s.inventory.db.outbox)
    && (party.DeliveryParty? || s'.delivery.db.outbox == s.delivery.db.outbox)
  }

  /** Between the two systems only the party's own tables and store changed, the store by m at most. */
  ghost predicate Only(s: System, s': System, party: Party, m: Message) {
    && s'.orders == s.orders && s'.inflight == s.inflight && s'.next == s.next + 1
    && OthersKeep(s, s', party)
    && (forall p, id :: id in DoneOf(s', p) ==> id in DoneOf(s, p) || (p == party && id == m.id))
  }

  lemma ServiceKeeps(c: Clean, party: Party, m: Message, s': System)
    requires Orderly(c) && party != OrderParty && Only(c.s, s', party, m)
    requires Flow(AllSent(s'), c.handled + {(party, m)}, |c.s.orders.db.rows|, s'.next)
    requires PaymentsAnnounced(s'.payment.db)
    ensures Orderly(Clean(s', c.handled + {(party, m)}, c.timely))
  {
    DoneStays(c, s', party, m);
  }

  lemma PublishedIsSent(start: S.Product, s: System, at: nat)
    requires Inv(start, s) && at < |s.log|
    ensures s.log[at] in AllSent(s)
  {
    assert Issued(s, s.log[at]);
    SentIsIssued(start, s, s.log[at]);
  }

  lemma AllSentAdded(s: System, s': System, party: Party, body: Event)
    requires s.next !in OutboxOf(s, party) && OutboxOf(s', party) == OutboxOf(s, party)[s.next := body]
    requires OthersKeep(s, s', party)
    ensures AllSent(s') == AllSent(s) + {Message(s.next, body)}
  {
    SentAdded(OutboxOf(s, party), s.next, body);
  }

  lemma NextIsUnused(start: S.Product, s: System)
    requires Inv(start, s)
    ensures forall party :: s.next !in OutboxOf(s, party)
  {
  }

  /** A service that answers a message for the first time keeps the invariant. */
  lemma AnswerGiven(start: S.Product, c: Clean, party: Party, m: Message, s': System, body: Event)
    requires CleanInv(start, c) && m in AllSent(c.s) && (party, m) !in c.handled
    requires Answers(party, m.body) && Follows(m.body, body)
    requires Inv(start, s') && Only(c.s, s', party, m)
    requires OutboxOf(s', party) == OutboxOf(c.s, party)[c.s.next := body]
    requires PaymentsAnnounced(s'.payment.db)
    ensures CleanInv(start, Clean(s', c.handled + {(party, m)}, c.timely))
  {
    NextIsUnused(start, c.s);
    AllSentAdded(c.s, s', party, body);
    FlowAnswered(AllSent(c.s), c.handled, |c.s.orders.db.rows|, c.s.next, party, m, Message(c.s.next, body));
    ServiceKeeps(c, party, m, s');
  }

  lemma FirstHandling(start: S.Product, c: Clean, party: Party, m: Message)
    requires CleanInv(start, c) && m in AllSent(c.s) && (party, m) !in c.handled
    ensures m.id !in DoneOf(c.s, party)
  {
    if m.id in DoneOf(c.s, party) {
      DoneWasHandled(start, c, party, m);
    }
  }

  lemma PaymentHand(s: System, at: nat, redis: Redis, approve: bool)
    requires at < |s.log| && P.Consumes(s.log[at].body) && s.log[at].id !in DoneOf(s, PaymentParty)
    ensures var s' := Hand(s, PaymentParty, at, redis, approve);
      && Only(s, s', PaymentParty, s.log[at])
      && s'.payment.db == P.Handle(s.payment.db, s.log[at], s.next, P.World(approve, false, NoFault)).db
  {
  }

  lemma ChargeGiven(start: S.Product, c: Clean, m: Message, s': System, approve: bool)
    requires CleanInv(start, c) && m in AllSent(c.s) && (PaymentParty, m) !in c.handled && P.Consumes(m.body)
    requires Inv(start, s') && Only(c.s, s', PaymentParty, m)
    requires s'.payment.db == P.Handle(c.s.payment.db, m, c.s.next, P.World(approve, false, NoFault)).db
    ensures CleanInv(start, Clean(s', c.handled + {(PaymentParty, m)}, c.timely))
  {
    var body := PaymentAnswers(start, c, m, approve);
    AnswerGiven(start, c, PaymentParty, m, s', body);
  }

  lemma PaymentGiven(start: S.Product, c: Clean, at: nat, redis: Redis, approve: bool)
    requires CleanInv(start, c) && Givable(c, PaymentParty, at)
    ensures CleanInv(start, Given(c, PaymentParty, at, redis, approve))
  {
    var m := c.s.log[at];
    PublishedIsSent(start, c.s, at);
    FirstHandling(start, c, PaymentParty, m);
    PaymentHand(c.s, at, redis, approve);
    PaymentStep(start, c.s, at, redis, P.World(approve, false, NoFault));
    ChargeGiven(start, c, m, Hand(c.s, PaymentParty, at, redis, approve), approve);
  }

  lemma InventoryHand(s: System, at: nat, redis: Redis, approve: bool)
    requires at < |s.log| && S.Consumes(s.log[at].body) && s.log[at].id !in DoneOf(s, InventoryParty)
    ensures var s' := Hand(s, InventoryParty, at, redis, approve);
      && Only(s, s', InventoryParty, s.log[at])
      && s'.inventory.db == S.Handle(s.inventory.db, s.log[at], s.next, NoFault).db
  {
  }

  lemma ReserveGiven(start: S.Product, c: Clean, m: Message, s': System)
    requires CleanInv(start, c) && m in AllSent(c.s) && (InventoryParty, m) !in c.handled && m.body.PaymentCompleted?
    requires Inv(start, s') && Only(c.s, s', InventoryParty, m)
    requires s'.inventory.db == S.Handle(c.s.inventory.db, m, c.s.next, NoFault).db
    ensures CleanInv(start, Clean(s', c.handled + {(InventoryParty, m)}, c.timely))
  {
    FirstReserve(start, c, m);
    var body := StockAnswers(c.s.inventory.db, m.id, m.body.order, c.s.next);
    AnswerGiven(start, c, InventoryParty, m, s', body);
  }

  predicate SameOutboxes(s: System, s': System) {
    && s'.orders.db.outbox == s.orders.db.outbox && s'.payment.db.outbox == s.payment.db.outbox
    && s'.inventory.db.outbox == s.inventory.db.outbox && s'.delivery.db.outbox == s.delivery.db.outbox
  }

  lemma AllSentSame(s: System, s': System)
    requires SameOutboxes(s, s')
    ensures AllSent(s') == AllSent(s)
  {
  }

  lemma RestoreIsIdle(start: S.Product, s: System, m: Message)
    requires Inv(start, s) && m in AllSent(s) && m.body.PaymentRefunded?
    ensures S.Handle(s.inventory.db, m, s.next, NoFault).db == s.inventory.db
  {
    SentIsIssued(start, s, m);
    RefundedOrderHoldsNothing(start, s, m);
  }

  lemma IdleKeeps(c: Clean, m: Message, s': System)
    requires Orderly(c) && m in AllSent(c.s) && m.body.PaymentRefunded?
    requires Only(c.s, s', InventoryParty, m) && s'.inventory.db == c.s.inventory.db
    ensures Orderly(Clean(s', c.handled + {(InventoryParty, m)}, c.timely))
  {
    AllSentSame(c.s, s');
    FlowHeard(AllSent(c.s), c.handled, |c.s.orders.db.rows|, c.s.next, InventoryParty, m, s'.next);
    ServiceKeeps(c, InventoryParty, m, s');
  }

  lemma RestoreGiven(start: S.Product, c: Clean, m: Message, s': System)
    requires CleanInv(start, c) && m in AllSent(c.s) && (InventoryParty, m) !in c.handled && m.body.PaymentRefunded?
    requires Inv(start, s') && Only(c.s, s', InventoryParty, m)
    requires s'.inventory.db == S.Handle(c.s.inventory.db, m, c.s.next, NoFault).db
    ensures CleanInv(start, Clean(s', c.handled + {(InventoryParty, m)}, c.timely))
  {
    RestoreIsIdle(start, c.s, m);
    IdleKeeps(c, m, s');
  }

  lemma InventoryGiven(start: S.Product, c: Clean, at: nat, redis: Redis, approve: bool)
    requires CleanInv(start, c) && Givable(c, InventoryParty, at)
    ensures CleanInv(start, Given(c, InventoryParty, at, redis, approve))
  {
    var m, s' := c.s.log[at], Hand(c.s, InventoryParty, at, redis, approve);
    PublishedIsSent(start, c.s, at);
    FirstHandling(start, c, InventoryParty, m);
    InventoryHand(c.s, at, redis, approve);
    InventoryStep(start, c.s, at, redis, NoFault);
    if m.body.PaymentCompleted? {
      ReserveGiven(start, c, m, s');
    } else {
      RestoreGiven(start, c, m, s');
    }
  }

  lemma DeliveryHand(s: System, at: nat, redis: Redis, approve: bool)
    requires at < |s.log| && D.Consumes(s.log[at].body) && s.log[at].id !in DoneOf(s, DeliveryParty)
    ensures var s' := Hand(s, DeliveryParty, at, redis, approve);
      && Only(s, s', DeliveryParty, s.log[at])
      && s'.delivery.db == D.Handle(s.delivery.db, s.log[at], s.next, NoFault).db
  {
  }

  lemma ShipGiven(start: S.Product, c: Clean, m: Message, s': System)
    requires CleanInv(start, c) && m in AllSent(c.s) && (DeliveryParty, m) !in c.handled && m.body.StockReserved?
    requires Inv(start, s') && Only(c.s, s', DeliveryParty, m)
    requires s'.delivery.db == D.Handle(c.s.delivery.db, m, c.s.next, NoFault).db
    ensures CleanInv(start, Clean(s', c.handled + {(DeliveryParty, m)}, c.timely))
  {
    FirstDelivery(start, c, m);
    ShipAnswers(c.s.delivery.db, m.id, m.body.order, c.s.next);
    AnswerGiven(start, c, DeliveryParty, m, s', DeliveryStarted(m.body.order, |c.s.delivery.db.rows|));
  }

  lemma DeliveryGiven(start: S.Product, c: Clean, at: nat, redis: Redis, approve: bool)
    requires CleanInv(start, c) && Givable(c, DeliveryParty, at)
    ensures CleanInv(start, Given(c, DeliveryParty, at, redis, approve))
  {
    var m := c.s.log[at];
    PublishedIsSent(start, c.s, at);
    FirstHandling(start, c, DeliveryParty, m);
    DeliveryHand(c.s, at, redis, approve);
    DeliveryStep(start, c.s, at, redis, NoFault);
    ShipGiven(start, c, m, Hand(c.s, DeliveryParty, at, redis, approve));
  }

  // ------------------------------------------------ the order service hears

  lemma NotHeard(start: S.Product, c: Clean, m: Message, rival: Event)
    requires CleanInv(start, c) && m in AllSent(c.s) && (OrderParty, m) !in c.handled && Rivals(rival, m.body)
    ensures !Heard(c.timely, TopicOf(rival), m.body.order)
  {
    if Heard(c.timely, TopicOf(rival), m.body.order) {
      var r :| r in c.timely && TopicOf(r.body) == TopicOf(rival) && r.body.order == m.body.order;
      SameTopic(r.body, rival);
      assert (OrderParty, r).1 in AllSent(c.s) && Rivals(r.body, m.body);
    }
  }

  /** The other event an order could have had in this one's place. */
  function Alternative(body: Event): (other: Event)
    ensures Rivals(other, body)
  {
    match body
    case PaymentCompleted(order, _, _) => PaymentFailed(order)
    case PaymentFailed(order) => PaymentCompleted(order, 0, 0)
    case StockReserved(order, _, _) => StockReservationFailed(order, InsufficientStock)
    case StockReservationFailed(order, _) => StockReserved(order, 0, 0)
    case _ => body
  }

  /** Events that an order whose stock failed never has. */
  predicate ShutOut(body: Event) {
    body.PaymentFailed? || body.StockReserved? || body.DeliveryStarted?
  }

  /** Two events and what came before them. */
  lemma CausesKnown(events: set<Message>, handled: Handled, n: nat, next: EventId)
    requires Flow(events, handled, n, next)
    ensures forall m :: m in events && m.body.DeliveryStarted? ==>
              exists r :: r in events && r.body.StockReserved? && r.body.order == m.body.order
    ensures forall m :: m in events && (m.body.StockReserved? || m.body.StockReservationFailed?) ==>
              exists r :: r in events && r.body.PaymentCompleted? && r.body.order == m.body.order
  {
    forall m | m in events && !m.body.OrderCreated?
      ensures exists r :: r in events && Follows(r.body, m.body)
    {
      assert Caused(events, handled, m);
    }
  }

  lemma FailureShutsOut(events: set<Message>, handled: Handled, n: nat, next: EventId, m: Message, failure: Message)
    requires Flow(events, handled, n, next) && m in events && failure in events && m.body.order == failure.body.order
    requires failure.body.StockReservationFailed?
    ensures !ShutOut(m.body)
  {
    CausesKnown(events, handled, n, next);
  }

  lemma FailureUnheard(start: S.Product, c: Clean, m: Message)
    requires CleanInv(start, c) && m in AllSent(c.s) && ShutOut(m.body)
    ensures !Heard(c.timely, StockReservationFailedV1, m.body.order)
  {
    if Heard(c.timely, StockReservationFailedV1, m.body.order) {
      var r :| r in c.timely && TopicOf(r.body) == StockReservationFailedV1 && r.body.order == m.body.order;
      assert (OrderParty, r).1 in AllSent(c.s);
      FailureShutsOut(AllSent(c.s), c.handled, |c.s.orders.db.rows|, c.s.next, m, r);
    }
  }

  /** The status the handler leaves when it is not interrupted. */
  function After(body: Event, seen: O.OrderStatus): O.OrderStatus {
    if O.Target(body, seen).Keep? then seen else O.Target(body, seen).status
  }

  /** The order has heard that its stock failed before it heard of its payment. */
  ghost predicate Overtaken(timely: set<Message>, body: Event) {
    body.PaymentCompleted? && Heard(timely, StockReservationFailedV1, body.order)
  }

  /** On a status that tells what was heard, a new event moves as its prior allows. */
  lemma TopicMoves(status: O.OrderStatus, body: Event, ready: bool)
    requires !status.PaymentProcessing? && O.Consumes(body) && !body.DeliveryFailed? && !status.Failed?
    requires ready <==> Prior(body) <= Path(status)
    requires TopicOf(body) !in Path(status) && TopicOf(Alternative(body)) !in Path(status)
    ensures O.Target(body, status).Write? <==> ready
    ensures body.StockReservationFailed? ||
            Path(After(body, status)) == Path(status) + if ready then {TopicOf(body)} else {}
    ensures body.StockReservationFailed? <==> After(body, status).Failed?
  {
  }

  lemma StatusOf(start: S.Product, c: Clean, m: Message)
    requires CleanInv(start, c) && m in AllSent(c.s)
    ensures m.body.order < |c.s.orders.db.rows|
    ensures var status := c.s.orders.db.rows[m.body.order].status;
      !status.PaymentProcessing? && StatusTells(c.timely, status, m.body.order)
  {
    assert Backed(c.s, m.body.order, c.s.orders.db.rows[m.body.order].status);
  }

  lemma HeardMore(timely: set<Message>, m: Message, topic: Topic, order: nat)
    ensures Heard(timely + {m}, topic, order) <==>
            Heard(timely, topic, order) || (topic == TopicOf(m.body) && order == m.body.order)
  {
    if Heard(timely, topic, order) {
      var n :| n in timely && TopicOf(n.body) == topic && n.body.order == order;
      assert n in timely + {m};
    }
    assert m in timely + {m};
  }

  /** What a first hearing does to the status. */
  ghost predicate Moves(timely: set<Message>, m: Message, status: O.OrderStatus) {
    && (O.Target(m.body, status).Write? <==> Ready(timely, m.body) && !Overtaken(timely, m.body))
    && StatusTells(Noted(timely, OrderParty, m), After(m.body, status), m.body.order)
  }

  lemma OpenMoves(timely: set<Message>, m: Message, status: O.OrderStatus)
    requires StatusTells(timely, status, m.body.order) && !status.PaymentProcessing? && !status.Failed?
    requires O.Consumes(m.body) && !m.body.DeliveryFailed?
    requires !Heard(timely, TopicOf(m.body), m.body.order)
    requires !Heard(timely, TopicOf(Alternative(m.body)), m.body.order)
    ensures Moves(timely, m, status)
  {
    TopicMoves(status, m.body, Ready(timely, m.body));
    forall t: Topic
      ensures Heard(timely + {m}, t, m.body.order) <==> Heard(timely, t, m.body.order) || t == TopicOf(m.body)
    {
      HeardMore(timely, m, t, m.body.order);
    }
  }

  lemma FailedMoves(timely: set<Message>, m: Message)
    requires StatusTells(timely, O.Failed, m.body.order) && m.body.PaymentCompleted?
    ensures Moves(timely, m, O.Failed)
  {
    HeardMore(timely, m, StockReservationFailedV1, m.body.order);
  }

  /**
   A first hearing moves the status if and only if the event's prior was heard in time before it and the order had not
   already FAILED; and the status goes on telling what was heard in time.
   */
  lemma StatusMoves(start: S.Product, c: Clean, m: Message)
    requires CleanInv(start, c) && m in AllSent(c.s) && O.Consumes(m.body) && (OrderParty, m) !in c.handled
    ensures Moves(c.timely, m, c.s.orders.db.rows[m.body.order].status)
  {
    var status := c.s.orders.db.rows[m.body.order].status;
    StatusOf(start, c, m);
    NeverFollows(AllSent(c.s), c.handled, |c.s.orders.db.rows|, c.s.next, m);
    NotHeard(start, c, m, m.body);
    NotHeard(start, c, m, Alternative(m.body));
    if !status.Failed? {
      OpenMoves(c.timely, m, status);
    } else if m.body.PaymentCompleted? {
      FailedMoves(c.timely, m);
    } else if ShutOut(m.body) {
      FailureUnheard(start, c, m);
    }
  }

  /** What the order service's two steps do to the system when they run together. */
  ghost predicate Updated(s: System, s': System, m: Message, status: O.OrderStatus) {
    && m.body.order < |s.orders.db.rows|
    && s' == s.(orders := s'.orders)
    && s'.orders.db.outbox == s.orders.db.outbox
    && |s'.orders.db.rows| == |s.orders.db.rows|
    && (forall o :: 0 <= o < |s.orders.db.rows| ==>
          s'.orders.db.rows[o].status == if o == m.body.order then status else s.orders.db.rows[o].status)
    && (forall id :: id in s'.orders.done ==> id in s.orders.done || id == m.id)
  }

  lemma OrderHand(s: System, at: nat, redis: Redis, approve: bool)
    requires at < |s.log| && s.inflight == [] && O.Consumes(s.log[at].body)
    requires s.log[at].id !in s.orders.done && s.log[at].body.order < |s.orders.db.rows|
    ensures var seen := s.orders.db.rows[s.log[at].body.order].status;
      Updated(s, Hand(s, OrderParty, at, redis, approve), s.log[at], After(s.log[at].body, seen))
  {
    var m, row := s.log[at], s.orders.db.rows[s.log[at].body.order];
    var op := O.Op(m, row.status, row.version);
    assert Apply(s, OrderRead(at, redis.checkFails)) == s.(inflight := [op]);
    assert Without([op], 0) == [];
  }

  lemma StatusOfOther(timely: set<Message>, m: Message, status: O.OrderStatus, order: nat)
    requires StatusTells(timely, status, order) && m.body.order != order
    ensures StatusTells(Noted(timely, OrderParty, m), status, order)
  {
    forall t: Topic
      ensures Heard(timely + {m}, t, order) <==> Heard(timely, t, order)
    {
      HeardMore(timely, m, t, order);
    }
  }

  lemma UpdatedFrame(s: System, s': System, m: Message, status: O.OrderStatus)
    requires Updated(s, s', m, status)
    ensures AllSent(s') == AllSent(s) && s'.inflight == s.inflight && s'.next == s.next
    ensures OrdersAnnounced(s.orders.db) ==> OrdersAnnounced(s'.orders.db)
    ensures s'.payment == s.payment
    ensures forall p, id :: id in DoneOf(s', p) ==> id in DoneOf(s, p) || (p == OrderParty && id == m.id)
  {
  }

  lemma StatusesHear(timely: set<Message>, s: System, s': System, m: Message, status: O.OrderStatus)
    requires Updated(s, s', m, status) && StatusesTell(timely, s.orders.db.rows)
    requires StatusTells(Noted(timely, OrderParty, m), status, m.body.order)
    ensures StatusesTell(Noted(timely, OrderParty, m), s'.orders.db.rows)
  {
    forall o | 0 <= o < |s'.orders.db.rows| && o != m.body.order
      ensures StatusTells(Noted(timely, OrderParty, m), s'.orders.db.rows[o].status, o)
    {
      StatusOfOther(timely, m, s.orders.db.rows[o].status, o);
    }
  }

  lemma TimelyGrows(handled: Handled, timely: set<Message>, m: Message)
    requires TimelyOrEarly(handled, timely)
    ensures TimelyOrEarly(handled + {(OrderParty, m)}, Noted(timely, OrderParty, m))
  {
  }

  lemma HeardKeeps(c: Clean, m: Message, s': System, status: O.OrderStatus)
    requires Orderly(c) && m in AllSent(c.s) && O.Consumes(m.body)
    requires Updated(c.s, s', m, status)
    requires StatusTells(Noted(c.timely, OrderParty, m), status, m.body.order)
    ensures Orderly(Clean(s', c.handled + {(OrderParty, m)}, Noted(c.timely, OrderParty, m)))
  {
    UpdatedFrame(c.s, s', m, status);
    FlowHeard(AllSent(c.s), c.handled, |c.s.orders.db.rows|, c.s.next, OrderParty, m, c.s.next);
    DoneStays(c, s', OrderParty, m);
    TimelyGrows(c.handled, c.timely, m);
    StatusesHear(c.timely, c.s, s', m, status);
  }

  lemma OrderGiven(start: S.Product, c: Clean, at: nat, redis: Redis, approve: bool)
    requires CleanInv(start, c) && Givable(c, OrderParty, at)
    ensures CleanInv(start, Given(c, OrderParty, at, redis, approve))
  {
    var m, s' := c.s.log[at], Hand(c.s, OrderParty, at, redis, approve);
    PublishedIsSent(start, c.s, at);
    FirstHandling(start, c, OrderParty, m);
    StatusOf(start, c, m);
    StatusMoves(start, c, m);
    OrderHand(c.s, at, redis, approve);
    InvStep(start, c.s, OrderRead(at, redis.checkFails));
    InvStep(start, Apply(c.s, OrderRead(at, redis.checkFails)), OrderWrite(|c.s.inflight|, redis.reserveFails));
    HeardKeeps(c, m, s', After(m.body, c.s.orders.db.rows[m.body.order].status));
  }

  // ------------------------------------------------ placing and publishing

  lemma StatusOfStranger(events: set<Message>, handled: Handled, timely: set<Message>, n: nat, next: EventId)
    requires Flow(events, handled, n, next) && TimelyOrEarly(handled, timely)
    ensures StatusTells(timely, O.Pending, n)
  {
    forall m | m in timely
      ensures m.body.order < n
    {
      assert (OrderParty, m).1 in events;
    }
  }

  predicate SameStores(s: System, s': System) {
    && s'.orders.done == s.orders.done && s'.payment.done == s.payment.done
    && s'.inventory.done == s.inventory.done && s'.delivery.done == s.delivery.done
  }

  lemma DoneSame(c: Clean, s': System)
    requires Remembered(c.handled, c.s) && SameStores(c.s, s')
    ensures Remembered(c.handled, s')
  {
    forall p, id | id in DoneOf(s', p)
      ensures WasHandled(c.handled, p, id)
    {
      assert id in DoneOf(c.s, p);
    }
  }

  lemma FlowLater(events: set<Message>, handled: Handled, n: nat, next: EventId)
    requires Flow(events, handled, n, next)
    ensures Flow(events, handled, n, next + 1)
  {
    FlowGrows(events, handled, n, next, events, handled, n, next + 1);
  }

  /** A fault-free CreateOrder changes nothing, or stores a PENDING order together with its event. */
  lemma CreateShape(db: O.Db, cmd: O.Command, uuid: EventId) returns (row: O.Row)
    ensures row.status.Pending?
    ensures var db' := O.OnCreate(db, cmd, uuid, false, NoFault).db;
      db' == db || db' == Stored(db, row, uuid)
  {
    row := O.Row(cmd.amount, cmd.quantity, O.Pending, 0, cmd.key);
  }

  function Stored(db: O.Db, row: O.Row, uuid: EventId): O.Db {
    O.Db(db.rows + [row], db.outbox[uuid := OrderCreated(|db.rows|, row.amount, row.quantity)])
  }

  /** Between the two systems only the orders' tables changed. */
  ghost predicate OnlyOrders(s: System, s': System, db: O.Db) {
    && s'.orders.db == db && s'.inflight == s.inflight && s'.next == s.next + 1
    && s'.payment == s.payment && s'.inventory == s.inventory && s'.delivery == s.delivery
    && s'.orders.done == s.orders.done
  }

  lemma SentOfPlaced(start: S.Product, s: System, row: O.Row, s': System)
    requires Inv(start, s) && OnlyOrders(s, s', Stored(s.orders.db, row, s.next))
    ensures AllSent(s') == AllSent(s) + {Message(s.next, OrderCreated(|s.orders.db.rows|, row.amount, row.quantity))}
  {
    NextIsUnused(start, s);
    assert s.next !in OutboxOf(s, OrderParty);
    AllSentAdded(s, s', OrderParty, OrderCreated(|s.orders.db.rows|, row.amount, row.quantity));
  }

  lemma StatusesOfPlaced(c: Clean, row: O.Row)
    requires Orderly(c) && row.status.Pending?
    ensures StatusesTell(c.timely, c.s.orders.db.rows + [row])
  {
    StatusOfStranger(AllSent(c.s), c.handled, c.timely, |c.s.orders.db.rows|, c.s.next);
  }

  lemma Placed(c: Clean, row: O.Row, s': System)
    requires Orderly(c) && row.status.Pending? && c.s.next !in c.s.orders.db.outbox
    requires OnlyOrders(c.s, s', Stored(c.s.orders.db, row, c.s.next))
    requires AllSent(s') ==
             AllSent(c.s) + {Message(c.s.next, OrderCreated(|c.s.orders.db.rows|, row.amount, row.quantity))}
    ensures Orderly(Clean(s', c.handled, c.timely))
  {
    var n := |c.s.orders.db.rows|;
    FlowOpened(AllSent(c.s), c.handled, n, c.s.next, Message(c.s.next, OrderCreated(n, row.amount, row.quantity)));
    OrderAnnounced(c.s.orders.db, row, c.s.next);
    DoneSame(c, s');
    StatusesOfPlaced(c, row);
  }

  lemma NotPlaced(c: Clean, s': System)
    requires Orderly(c) && OnlyOrders(c.s, s', c.s.orders.db)
    ensures Orderly(Clean(s', c.handled, c.timely))
  {
    AllSentSame(c.s, s');
    FlowLater(AllSent(c.s), c.handled, |c.s.orders.db.rows|, c.s.next);
    DoneSame(c, s');
  }

  lemma PlaceKeeps(start: S.Product, c: Clean, cmd: O.Command)
    requires CleanInv(start, c)
    ensures CleanInv(start, Do(c, Place(cmd)))
  {
    var s' := Apply(c.s, Create(cmd, false, NoFault));
    CreateStep(start, c.s, cmd, false, NoFault);
    var row := CreateShape(c.s.orders.db, cmd, c.s.next);
    if s'.orders.db == c.s.orders.db {
      NotPlaced(c, s');
    } else {
      SentOfPlaced(start, c.s, row, s');
      Placed(c, row, s');
    }
  }

  lemma Logged(c: Clean, log: seq<Message>)
    requires Orderly(c)
    ensures Orderly(c.(s := c.s.(log := log)))
  {
    AllSentSame(c.s, c.s.(log := log));
    DoneSame(c, c.s.(log := log));
  }

  lemma SendKeeps(start: S.Product, c: Clean, party: Party, id: EventId)
    requires CleanInv(start, c) && Enabled(c, Send(party, id))
    ensures CleanInv(start, Do(c, Send(party, id)))
  {
    PublishStep(start, c.s, party, id);
    Logged(c, c.s.log + [Message(id, OutboxOf(c.s, party)[id])]);
  }

  lemma GiveKeeps(start: S.Product, c: Clean, party: Party, at: nat, redis: Redis, approve: bool)
    requires CleanInv(start, c) && Givable(c, party, at)
    ensures CleanInv(start, Given(c, party, at, redis, approve))
  {
    match party {
      case OrderParty => OrderGiven(start, c, at, redis, approve);
      case PaymentParty => PaymentGiven(start, c, at, redis, approve);
      case InventoryParty => InventoryGiven(start, c, at, redis, approve);
      case DeliveryParty => DeliveryGiven(start, c, at, redis, approve);
    }
  }

  lemma DoGive(c: Clean, party: Party, at: nat, redis: Redis, approve: bool)
    requires at < |c.s.log|
    ensures Do(c, Give(party, at, redis, approve)) == Given(c, party, at, redis, approve)
  {
  }

  lemma CleanStep(start: S.Product, c: Clean, act: Act)
    requires CleanInv(start, c) && Enabled(c, act)
    ensures CleanInv(start, Do(c, act))
  {
    match act {
      case Place(cmd) => PlaceKeeps(start, c, cmd);
      case Send(party, id) => SendKeeps(start, c, party, id);
      case Give(party, at, redis, approve) =>
        DoGive(c, party, at, redis, approve);
        GiveKeeps(start, c, party, at, redis, approve);
    }
  }

  lemma NothingSent(start: S.Product)
    ensures AllSent(Init(start)) == {}
  {
  }

  lemma CleanBegin(start: S.Product)
    requires ValidStart(start)
    ensures CleanInv(start, Begin(start))
  {
    InvInit(start);
    NothingSent(start);
    assert Orderly(Begin(start));
  }

  lemma {:induction false} CleanRun(start: S.Product, acts: seq<Act>)
    requires ValidStart(start) && Fair(start, acts)
    ensures CleanInv(start, Play(Begin(start), acts))
    decreases |acts|
  {
    if acts == [] {
      CleanBegin(start);
    } else {
      CleanRun(start, acts[..|acts| - 1]);
      CleanStep(start, Play(Begin(start), acts[..|acts| - 1]), acts[|acts| - 1]);
    }
  }

  // ------------------------------------------------ the measure

  function OnTopics(log: seq<Message>): set<Message> {
    set i | 0 <= i < |log| :: log[i]
  }

  /** How often an event was published or handled. */
  function Effort(c: Clean): nat {
    |OnTopics(c.s.log)| + |c.handled|
  }

  /** Publishing and handling still to come, if every order causes as much of both as it can. */
  function Measure(c: Clean): int {
    10 * |c.s.orders.db.rows| - Effort(c)
  }

  lemma SubsetIsSmaller<T>(a: set<T>, b: set<T>)
    requires a <= b
    ensures |a| <= |b|
  {
    assert b == a + (b - a);
  }

  /** Each order causes at most four events and six handler executions. */
  lemma {:induction false} WorkPerOrder(start: S.Product, acts: seq<Act>, order: nat)
    requires ValidStart(start) && Fair(start, acts)
    ensures var c := Play(Begin(start), acts);
      && |set m | m in AllSent(c.s) && m.body.order == order| <= 4
      && |set h | h in c.handled && h.1.body.order == order| <= 6
  {
    var c := Play(Begin(start), acts);
    CleanRun(start, acts);
    PerOrder(AllSent(c.s), c.handled, |c.s.orders.db.rows|, c.s.next, order);
  }

  /** All orders together cause at most ten units of work each. */
  lemma {:induction false} WorkIsBounded(start: S.Product, acts: seq<Act>)
    requires ValidStart(start) && Fair(start, acts)
    ensures Measure(Play(Begin(start), acts)) >= 0
  {
    var c := Play(Begin(start), acts);
    var n := |c.s.orders.db.rows|;
    CleanRun(start, acts);
    EventsInTotal(AllSent(c.s), c.handled, n, c.s.next);
    ExecutionsInTotal(AllSent(c.s), c.handled, n, c.s.next);
    forall i | 0 <= i < |c.s.log|
      ensures c.s.log[i] in AllSent(c.s)
    {
      PublishedIsSent(start, c.s, i);
    }
    SubsetIsSmaller(OnTopics(c.s.log), AllSent(c.s));
  }

  lemma PublishedMore(log: seq<Message>, m: Message)
    requires m !in log
    ensures |OnTopics(log + [m])| == |OnTopics(log)| + 1
  {
    assert OnTopics(log + [m]) == OnTopics(log) + {m} by {
      forall x | x in OnTopics(log) + {m}
        ensures x in OnTopics(log + [m])
      {
        var i :| 0 <= i <= |log| && x == if i < |log| then log[i] else m;
        assert (log + [m])[i] == x;
      }
    }
  }

  lemma HandKeepsTables(s: System, party: Party, at: nat, redis: Redis, approve: bool)
    ensures var s' := Hand(s, party, at, redis, approve);
      s'.log == s.log && |s'.orders.db.rows| == |s.orders.db.rows|
  {
  }

  lemma GiveIsWork(c: Clean, party: Party, at: nat, redis: Redis, approve: bool)
    requires at < |c.s.log| && (party, c.s.log[at]) !in c.handled
    ensures Measure(Do(c, Give(party, at, redis, approve))) == Measure(c) - 1
  {
    HandKeepsTables(c.s, party, at, redis, approve);
  }

  lemma SendIsWork(c: Clean, party: Party, id: EventId)
    requires id in OutboxOf(c.s, party) && Message(id, OutboxOf(c.s, party)[id]) !in c.s.log
    ensures Measure(Do(c, Send(party, id))) == Measure(c) - 1
  {
    PublishedMore(c.s.log, Message(id, OutboxOf(c.s, party)[id]));
  }

  lemma PlaceIsFree(c: Clean, cmd: O.Command)
    ensures Measure(Do(c, Place(cmd))) <= Measure(c) + 10
  {
    var row := CreateShape(c.s.orders.db, cmd, c.s.next);
  }

  /** Only placing an order adds work, ten units at most; every other act of a fair run takes one unit away. */
  lemma MeasureDrops(c: Clean, act: Act)
    requires Enabled(c, act)
    ensures if act.Place? then Measure(Do(c, act)) <= Measure(c) + 10 else Measure(Do(c, act)) == Measure(c) - 1
  {
    match act {
      case Place(cmd) => PlaceIsFree(c, cmd);
      case Send(party, id) => SendIsWork(c, party, id);
      case Give(party, at, redis, approve) => GiveIsWork(c, party, at, redis, approve);
    }
  }

  // ------------------------------------------------ what is left when nothing is left to do

  /** Everything published, everything handled. */
  ghost predicate Quiet(c: Clean) {
    forall act: Act :: !act.Place? ==> !Enabled(c, act)
  }

  lemma AllPublished(start: S.Product, c: Clean, m: Message)
    requires Inv(start, c.s) && Quiet(c) && m in AllSent(c.s)
    ensures m in c.s.log
  {
    SentIsIssued(start, c.s, m);
    assert !Enabled(c, Send(Producer(TopicOf(m.body)), m.id));
  }

  lemma PublishedIsHandled(c: Clean, party: Party, m: Message)
    requires Quiet(c) && m in c.s.log && Subscribes(party, m.body)
    ensures (party, m) in c.handled
  {
    var at :| 0 <= at < |c.s.log| && c.s.log[at] == m;
    assert !Enabled(c, Give(party, at, Redis(false, false), true));
  }

  lemma AllHandled(start: S.Product, c: Clean, party: Party, m: Message)
    requires CleanInv(start, c) && Quiet(c) && m in AllSent(c.s) && Subscribes(party, m.body)
    ensures (party, m) in c.handled
  {
    AllPublished(start, c, m);
    PublishedIsHandled(c, party, m);
  }

  lemma AnswerOf(start: S.Product, c: Clean, party: Party, m: Message) returns (a: Message)
    requires CleanInv(start, c) && Quiet(c) && m in AllSent(c.s) && Answers(party, m.body)
    ensures a in AllSent(c.s) && Follows(m.body, a.body)
  {
    AllHandled(start, c, party, m);
    assert Answered(AllSent(c.s), (party, m).1);
    a :| a in AllSent(c.s) && Follows(m.body, a.body);
  }

  /** One of the three ends of an order's tables: nothing happened, everything was undone, or everything was done. */
  ghost predicate AllOrNothing(s: System, order: nat) {
    && order < |s.orders.db.rows|
    && var row := s.orders.db.rows[order];
      match row.status
      case Canceled => !Paid(s, order) && !Reserved(s, order) && !Shipped(s, order)
      case Failed => SolePayment(s, order, row.amount, P.Refunded) && !Reserved(s, order) && !Shipped(s, order)
      case Pending => false
      case PaymentProcessing => false
      case _ => SolePayment(s, order, row.amount, P.Completed) && SoleReservation(s, order) && SoleDelivery(s, order)
  }

  /** The status says which end it is. */
  ghost predicate Settled(s: System, order: nat) {
    AllOrNothing(s, order) && O.Terminal(s.orders.db.rows[order].status)
  }

  /** The order service heard each of the order's events after its prior. */
  ghost predicate InTime(c: Clean, order: nat) {
    NoneEarly(c.handled, c.timely, order)
  }

  ghost predicate NoneEarly(handled: Handled, timely: set<Message>, order: nat) {
    forall m :: (OrderParty, m) in handled && m.body.order == order ==> m in timely
  }

  lemma UnpaidGetsNothing(start: S.Product, s: System, order: nat)
    requires Inv(start, s) && !Paid(s, order)
    ensures !Reserved(s, order) && !Shipped(s, order)
  {
    if Reserved(s, order) {
      ReservedWasPaid(start, s, order);
    }
    if Shipped(s, order) {
      ShippedWasReserved(start, s, order);
    }
  }

  lemma PaidWasAnnounced(s: System, order: nat)
    requires PaymentsAnnounced(s.payment.db) && Paid(s, order)
    ensures Has(s.payment.db.outbox, PaymentCompletedV1, order)
  {
    var i :| 0 <= i < |s.payment.db.rows| && s.payment.db.rows[i].order == order;
    assert PaymentAnnounced(s.payment.db.outbox, s.payment.db.rows[i]);
  }

  lemma DeclinedWasNotPaid(start: S.Product, c: Clean, m: Message)
    requires CleanInv(start, c) && m in AllSent(c.s) && m.body.PaymentFailed?
    ensures !Paid(c.s, m.body.order)
  {
    if Paid(c.s, m.body.order) {
      PaidWasAnnounced(c.s, m.body.order);
      var paid := SentOf(c.s, PaymentParty, PaymentCompletedV1, m.body.order);
      SameEvent(c, m, paid);
    }
  }

  /** An order has only one event at each depth. */
  lemma SameEvent(c: Clean, a: Message, b: Message)
    requires Orderly(c) && a in AllSent(c.s) && b in AllSent(c.s) && Rivals(a.body, b.body)
    ensures a == b
  {
  }

  lemma RefundIsSole(start: S.Product, s: System, m: Message)
    requires Inv(start, s) && Issued(s, m) && m.body.PaymentRefunded? && m.body.order < |s.orders.db.rows|
    ensures SolePayment(s, m.body.order, s.orders.db.rows[m.body.order].amount, P.Refunded)
  {
    var rows, i := s.payment.db.rows, m.body.payment;
    assert PaymentEventInv(s.orders.db.outbox, rows, s.payment.db.outbox[m.id]);
    assert PaymentRowInv(s.orders.db.outbox, s.inventory.db.outbox, rows[i]);
    assert CreatedInv(s.orders.db.rows, s.orders.db.outbox[rows[i].key.event]);
  }

  /** An event without a prior has been heard in time. */
  lemma OrderHears(start: S.Product, c: Clean, m: Message)
    requires CleanInv(start, c) && Quiet(c) && m in AllSent(c.s) && O.Consumes(m.body) && Prior(m.body) == {}
    ensures Heard(c.timely, TopicOf(m.body), m.body.order)
  {
    AllHandled(start, c, OrderParty, m);
  }

  /** Which end what was heard leads to. */
  lemma HeardEnds(timely: set<Message>, status: O.OrderStatus, order: nat)
    requires StatusTells(timely, status, order)
    ensures Heard(timely, StockReservationFailedV1, order) ==> status.Failed?
    ensures Heard(timely, PaymentFailedV1, order) ==> status.Canceled? || status.Failed?
  {
  }

  lemma DeclinedSettles(start: S.Product, c: Clean, verdict: Message)
    requires CleanInv(start, c) && Quiet(c) && verdict in AllSent(c.s) && verdict.body.PaymentFailed?
    ensures AllOrNothing(c.s, verdict.body.order) && c.s.orders.db.rows[verdict.body.order].status.Canceled?
  {
    var order := verdict.body.order;
    StatusOf(start, c, verdict);
    OrderHears(start, c, verdict);
    FailureUnheard(start, c, verdict);
    HeardEnds(c.timely, c.s.orders.db.rows[order].status, order);
    DeclinedWasNotPaid(start, c, verdict);
    UnpaidGetsNothing(start, c.s, order);
  }

  lemma SentIsHad(start: S.Product, s: System, m: Message)
    requires Inv(start, s) && m in AllSent(s)
    ensures Has(OutboxOf(s, Producer(TopicOf(m.body))), TopicOf(m.body), m.body.order)
  {
    SentIsIssued(start, s, m);
    IssuedMeansHas(s, m);
  }

  lemma UnreservedIsUnshipped(start: S.Product, s: System, order: nat)
    requires Inv(start, s) && !Reserved(s, order)
    ensures !Shipped(s, order)
  {
    if Shipped(s, order) {
      ShippedWasReserved(start, s, order);
    }
  }

  lemma FailedHoldsNothing(start: S.Product, s: System, order: nat)
    requires Inv(start, s) && Has(s.inventory.db.outbox, StockReservationFailedV1, order)
    ensures !Reserved(s, order) && !Shipped(s, order)
  {
    FailedOrderHoldsNothing(start, s, order);
    UnreservedIsUnshipped(start, s, order);
  }

  lemma FailedIsRefunded(start: S.Product, c: Clean, outcome: Message)
    requires CleanInv(start, c) && Quiet(c) && outcome in AllSent(c.s) && outcome.body.StockReservationFailed?
    requires outcome.body.order < |c.s.orders.db.rows|
    ensures SolePayment(c.s, outcome.body.order, c.s.orders.db.rows[outcome.body.order].amount, P.Refunded)
  {
    var refund := AnswerOf(start, c, PaymentParty, outcome);
    SentIsIssued(start, c.s, refund);
    RefundIsSole(start, c.s, refund);
  }

  lemma FailedIsUndone(start: S.Product, c: Clean, outcome: Message)
    requires CleanInv(start, c) && Quiet(c) && outcome in AllSent(c.s) && outcome.body.StockReservationFailed?
    requires outcome.body.order < |c.s.orders.db.rows|
    ensures SolePayment(c.s, outcome.body.order, c.s.orders.db.rows[outcome.body.order].amount, P.Refunded)
    ensures !Reserved(c.s, outcome.body.order) && !Shipped(c.s, outcome.body.order)
  {
    FailedIsRefunded(start, c, outcome);
    SentIsHad(start, c.s, outcome);
    FailedHoldsNothing(start, c.s, outcome.body.order);
  }

  lemma FailedStatus(start: S.Product, c: Clean, outcome: Message)
    requires CleanInv(start, c) && Quiet(c) && outcome in AllSent(c.s) && outcome.body.StockReservationFailed?
    ensures outcome.body.order < |c.s.orders.db.rows| && c.s.orders.db.rows[outcome.body.order].status.Failed?
  {
    StatusOf(start, c, outcome);
    OrderHears(start, c, outcome);
    HeardEnds(c.timely, c.s.orders.db.rows[outcome.body.order].status, outcome.body.order);
  }

  lemma FailedSettles(start: S.Product, c: Clean, outcome: Message)
    requires CleanInv(start, c) && Quiet(c) && outcome in AllSent(c.s) && outcome.body.StockReservationFailed?
    ensures AllOrNothing(c.s, outcome.body.order) && c.s.orders.db.rows[outcome.body.order].status.Failed?
  {
    FailedStatus(start, c, outcome);
    FailedIsUndone(start, c, outcome);
  }

  lemma ShippedIsHad(s: System, shipped: Message)
    requires Issued(s, shipped) && shipped.body.DeliveryStarted?
    ensures Has(s.delivery.db.outbox, DeliveryStartedV1, shipped.body.order)
  {
    IssuedMeansHas(s, shipped);
  }

  /** The status of an order that is paid for and whose stock did not fail. */
  lemma PaidStatus(timely: set<Message>, status: O.OrderStatus, order: nat)
    requires StatusTells(timely, status, order) && !status.PaymentProcessing?
    requires Heard(timely, PaymentCompletedV1, order) && !Heard(timely, StockReservationFailedV1, order)
    ensures status.StockReserving? || status.DeliveryPreparing? || status.Completed?
    ensures status.Completed? <==> Heard(timely, DeliveryStartedV1, order)
  {
  }

  /** The order service handles no other event of the order at this depth. */
  ghost predicate Alone(handled: Handled, m: Message) {
    forall r :: (OrderParty, r) in handled && Rivals(r.body, m.body) ==> r == m
  }

  lemma HandledAlone(events: set<Message>, handled: Handled, n: nat, next: EventId, m: Message)
    requires Flow(events, handled, n, next) && m in events
    ensures Alone(handled, m)
  {
    forall r | (OrderParty, r) in handled && Rivals(r.body, m.body)
      ensures r == m
    {
      assert (OrderParty, r).1 in events;
    }
  }

  /** Of the events of a delivered order, only these two have a prior. */
  lemma HeardCompletely(handled: Handled, timely: set<Message>, reserved: Message, shipped: Message)
    requires (OrderParty, reserved) in handled && (OrderParty, shipped) in handled && TimelyOrEarly(handled, timely)
    requires Alone(handled, reserved) && Alone(handled, shipped) && reserved.body.order == shipped.body.order
    requires reserved.body.StockReserved? && shipped.body.DeliveryStarted?
    ensures NoneEarly(handled, timely, shipped.body.order) <==> reserved in timely && shipped in timely
  {
    forall m | (OrderParty, m) in handled && m.body.order == shipped.body.order && Prior(m.body) != {}
      ensures m == reserved || m == shipped
    {
      assert Rivals(m.body, reserved.body) || Rivals(m.body, shipped.body);
    }
  }

  lemma HeardIs(handled: Handled, timely: set<Message>, m: Message)
    requires Alone(handled, m) && TimelyOrEarly(handled, timely)
    ensures Heard(timely, TopicOf(m.body), m.body.order) <==> m in timely
  {
    if Heard(timely, TopicOf(m.body), m.body.order) {
      var r :| r in timely && TopicOf(r.body) == TopicOf(m.body) && r.body.order == m.body.order;
      SameTopic(r.body, m.body);
    }
  }

  /** Both events with a prior have been handled; what the order heard of them says whether it heard in time. */
  lemma HeardBoth(start: S.Product, c: Clean, reserved: Message, shipped: Message)
    requires CleanInv(start, c) && Quiet(c) && reserved in AllSent(c.s) && shipped in AllSent(c.s)
    requires reserved.body.StockReserved? && shipped.body.DeliveryStarted? && reserved.body.order == shipped.body.order
    ensures reserved in c.timely <==> Heard(c.timely, StockReservedV1, shipped.body.order)
    ensures shipped in c.timely <==> Heard(c.timely, DeliveryStartedV1, shipped.body.order)
    ensures InTime(c, shipped.body.order) <==> reserved in c.timely && shipped in c.timely
  {
    AllHandled(start, c, OrderParty, reserved);
    AllHandled(start, c, OrderParty, shipped);
    HandledAlone(AllSent(c.s), c.handled, |c.s.orders.db.rows|, c.s.next, reserved);
    HandledAlone(AllSent(c.s), c.handled, |c.s.orders.db.rows|, c.s.next, shipped);
    HeardIs(c.handled, c.timely, reserved);
    HeardIs(c.handled, c.timely, shipped);
    HeardCompletely(c.handled, c.timely, reserved, shipped);
  }

  lemma ReservedSettles(start: S.Product, c: Clean, verdict: Message, outcome: Message)
    requires CleanInv(start, c) && Quiet(c) && verdict in AllSent(c.s) && outcome in AllSent(c.s)
    requires verdict.body.PaymentCompleted? && outcome.body.StockReserved? && verdict.body.order == outcome.body.order
    ensures AllOrNothing(c.s, outcome.body.order)
    ensures c.s.orders.db.rows[outcome.body.order].status.Completed? <==> InTime(c, outcome.body.order)
  {
    var order := outcome.body.order;
    var status := c.s.orders.db.rows[order].status;
    StatusOf(start, c, outcome);
    OrderHears(start, c, verdict);
    FailureUnheard(start, c, outcome);
    PaidStatus(c.timely, status, order);
    var shipped := AnswerOf(start, c, DeliveryParty, outcome);
    HeardBoth(start, c, outcome, shipped);
    SentIsIssued(start, c.s, shipped);
    ShippedIsHad(c.s, shipped);
    Done(start, c.s, order);
  }

  /** An order without a stock.reserved has no event with a prior. */
  lemma NothingEarly(events: set<Message>, handled: Handled, n: nat, next: EventId, timely: set<Message>, order: nat)
    requires Flow(events, handled, n, next) && TimelyOrEarly(handled, timely)
    requires forall m :: m in events && m.body.order == order ==> !m.body.StockReserved?
    ensures NoneEarly(handled, timely, order)
  {
    CausesKnown(events, handled, n, next);
    forall m | (OrderParty, m) in handled && m.body.order == order
      ensures m in timely
    {
      assert (OrderParty, m).1 in events;
    }
  }

  /** An order that was declined, or whose stock failed, has no stock.reserved. */
  lemma NoneReserved(events: set<Message>, handled: Handled, n: nat, next: EventId, m: Message)
    requires Flow(events, handled, n, next) && m in events && (m.body.PaymentFailed? || m.body.StockReservationFailed?)
    ensures forall r :: r in events && r.body.order == m.body.order ==> !r.body.StockReserved?
  {
    CausesKnown(events, handled, n, next);
    assert forall r :: r in events && Rivals(r.body, m.body) ==> r == m;
  }

  lemma UndoneIsInTime(c: Clean, m: Message)
    requires Orderly(c) && m in AllSent(c.s) && (m.body.PaymentFailed? || m.body.StockReservationFailed?)
    ensures InTime(c, m.body.order)
  {
    NoneReserved(AllSent(c.s), c.handled, |c.s.orders.db.rows|, c.s.next, m);
    NothingEarly(AllSent(c.s), c.handled, |c.s.orders.db.rows|, c.s.next, c.timely, m.body.order);
  }

  lemma PaidSettles(start: S.Product, c: Clean, verdict: Message)
    requires CleanInv(start, c) && Quiet(c) && verdict in AllSent(c.s) && verdict.body.PaymentCompleted?
    ensures AllOrNothing(c.s, verdict.body.order)
    ensures Settled(c.s, verdict.body.order) <==> InTime(c, verdict.body.order)
  {
    var outcome := AnswerOf(start, c, InventoryParty, verdict);
    if outcome.body.StockReserved? {
      ReservedSettles(start, c, verdict, outcome);
      FailureUnheard(start, c, outcome);
      StatusOf(start, c, outcome);
      OrderHears(start, c, verdict);
      PaidStatus(c.timely, c.s.orders.db.rows[verdict.body.order].status, verdict.body.order);
    } else {
      FailedSettles(start, c, outcome);
      UndoneIsInTime(c, outcome);
    }
  }

  /**
   All or nothing: when a fair run has nothing left to do, every order has no payment, or its one payment REFUNDED
   and nothing reserved or shipped, or one payment, one reservation and one delivery. Its status says so, as
   CANCELED, FAILED or COMPLETED, if and only if the order service heard the order's events in time.
   */
  lemma {:induction false} EveryOrderSettles(start: S.Product, acts: seq<Act>, order: nat)
    requires ValidStart(start) && Fair(start, acts)
    requires Quiet(Play(Begin(start), acts)) && order < |Play(Begin(start), acts).s.orders.db.rows|
    ensures var c := Play(Begin(start), acts);
      AllOrNothing(c.s, order) && (Settled(c.s, order) <==> InTime(c, order))
  {
    var c := Play(Begin(start), acts);
    CleanRun(start, acts);
    assert Has(c.s.orders.db.outbox, OrderCreatedV1, order);
    var created := SentOf(c.s, OrderParty, OrderCreatedV1, order);
    var verdict := AnswerOf(start, c, PaymentParty, created);
    if verdict.body.PaymentCompleted? {
      PaidSettles(start, c, verdict);
    } else {
      DeclinedSettles(start, c, verdict);
      UndoneIsInTime(c, verdict);
    }
  }

  /** Orders are not removed, and what was heard early stays so. */
  ghost predicate StaysEarly(c: Clean, c': Clean) {
    && |c.s.orders.db.rows| <= |c'.s.orders.db.rows| && c.handled <= c'.handled
    && (forall m :: (OrderParty, m) in c.handled && m !in c.timely ==> m !in c'.timely)
  }

  lemma EarlyStep(c: Clean, act: Act)
    requires Enabled(c, act)
    ensures StaysEarly(c, Do(c, act))
  {
    match act {
      case Place(cmd) => var row := CreateShape(c.s.orders.db, cmd, c.s.next);
      case Send(party, id) =>
      case Give(party, at, redis, approve) => HandKeepsTables(c.s, party, at, redis, approve);
    }
  }

  lemma EarlyTwice(a: Clean, b: Clean, c: Clean)
    requires StaysEarly(a, b) && StaysEarly(b, c)
    ensures StaysEarly(a, c)
  {
  }

  lemma {:induction false} EarlyNext(start: S.Product, acts: seq<Act>)
    requires acts != [] && Fair(start, acts)
    ensures StaysEarly(Play(Begin(start), acts[..|acts| - 1]), Play(Begin(start), acts))
  {
    EarlyStep(Play(Begin(start), acts[..|acts| - 1]), acts[|acts| - 1]);
  }

  lemma {:induction false} EarlyRun(start: S.Product, acts: seq<Act>, more: seq<Act>)
    requires Fair(start, acts + more)
    ensures StaysEarly(Play(Begin(start), acts), Play(Begin(start), acts + more))
    decreases |more|
  {
    if more == [] {
      assert acts + more == acts;
    } else {
      var whole, before := acts + more, acts + more[..|more| - 1];
      assert whole[..|whole| - 1] == before;
      EarlyRun(start, acts, more[..|more| - 1]);
      EarlyNext(start, whole);
      EarlyTwice(Play(Begin(start), acts), Play(Begin(start), before), Play(Begin(start), whole));
    }
  }

  /** A single event heard too early is never repaired: no fair continuation settles its order. */
  lemma {:induction false} EarlyIsForever(start: S.Product, acts: seq<Act>, more: seq<Act>, order: nat)
    requires ValidStart(start) && Fair(start, acts + more)
    requires order < |Play(Begin(start), acts).s.orders.db.rows| && !InTime(Play(Begin(start), acts), order)
    ensures var c := Play(Begin(start), acts + more);
      order < |c.s.orders.db.rows| && !InTime(c, order) && (Quiet(c) ==> !Settled(c.s, order))
  {
    var c := Play(Begin(start), acts);
    EarlyRun(start, acts, more);
    var m :| (OrderParty, m) in c.handled && m.body.order == order && m !in c.timely;
    assert (OrderParty, m) in Play(Begin(start), acts + more).handled;
    if Quiet(Play(Begin(start), acts + more)) {
      EveryOrderSettles(start, acts + more, order);
    }
  }

  // ------------------------------------------------ rest is reached, and in time

  /** An order that was heard in time so far still is. */
  ghost predicate KeepsTime(c: Clean, c': Clean) {
    forall order :: InTime(c, order) ==> InTime(c', order)
  }

  /** An event whose prior was not heard has its prior waiting to be published or heard. */
  lemma PriorWaits(events: set<Message>, handled: Handled, n: nat, next: EventId, timely: set<Message>, m: Message)
    returns (r: Message)
    requires Flow(events, handled, n, next) && m in events && !Ready(timely, m.body)
    requires forall x :: (OrderParty, x) in handled && x.body.order == m.body.order ==> x in timely
    ensures r in events && (OrderParty, r) !in handled && O.Consumes(r.body)
    ensures r.body.order == m.body.order && Depth(r.body) < Depth(m.body)
  {
    assert Caused(events, handled, m);
    var party :| exists c :: c in events && (party, c) in handled && Answers(party, c.body) && Follows(c.body, m.body);
    r :| r in events && (party, r) in handled && Answers(party, r.body) && Follows(r.body, m.body);
    PriorIsCause(r.body, m.body);
    assert !Heard(timely, TopicOf(r.body), r.body.order);
  }

  lemma PriorIsCause(cause: Event, body: Event)
    requires Follows(cause, body) && Prior(body) != {}
    ensures Prior(body) == {TopicOf(cause)} && O.Consumes(cause) && Depth(cause) < Depth(body)
  {
  }

  lemma GivenInTime(c: Clean, at: nat)
    requires at < |c.s.log| && (Ready(c.timely, c.s.log[at].body) || !InTime(c, c.s.log[at].body.order))
    requires (OrderParty, c.s.log[at]) !in c.handled
    ensures KeepsTime(c, Do(c, Give(OrderParty, at, Redis(false, false), true)))
  {
    var m := c.s.log[at];
    forall order | InTime(c, order)
      ensures InTime(Do(c, Give(OrderParty, at, Redis(false, false), true)), order)
    {
      forall x | (OrderParty, x) in c.handled + {(OrderParty, m)} && x.body.order == order
        ensures x in Noted(c.timely, OrderParty, m)
      {
      }
    }
  }

  /** While the order service has something to hear, it has something to hear in time. */
  lemma HearInTime(start: S.Product, c: Clean, m: Message) returns (act: Act)
    requires CleanInv(start, c) && m in AllSent(c.s) && O.Consumes(m.body) && (OrderParty, m) !in c.handled
    ensures !act.Place? && Enabled(c, act) && KeepsTime(c, Do(c, act))
    decreases Depth(m.body)
  {
    if m !in c.s.log {
      SentIsIssued(start, c.s, m);
      act := Send(Producer(TopicOf(m.body)), m.id);
    } else if Ready(c.timely, m.body) || !InTime(c, m.body.order) {
      var at :| 0 <= at < |c.s.log| && c.s.log[at] == m;
      act := Give(OrderParty, at, Redis(false, false), true);
      GivenInTime(c, at);
    } else {
      var r := PriorWaits(AllSent(c.s), c.handled, |c.s.orders.db.rows|, c.s.next, c.timely, m);
      act := HearInTime(start, c, r);
    }
  }

  lemma ServicesKeepTime(c: Clean, act: Act)
    requires act.Send? || (act.Give? && act.party != OrderParty)
    ensures KeepsTime(c, Do(c, act))
  {
  }

  /** While there is something to do, there is something to do that is not too early. */
  lemma InGoodTime(start: S.Product, c: Clean) returns (act: Act)
    requires CleanInv(start, c) && !Quiet(c)
    ensures !act.Place? && Enabled(c, act) && KeepsTime(c, Do(c, act))
  {
    act :| !act.Place? && Enabled(c, act);
    if act.Give? && act.party.OrderParty? {
      PublishedIsSent(start, c.s, act.at);
      act := HearInTime(start, c, c.s.log[act.at]);
    } else {
      ServicesKeepTime(c, act);
    }
  }

  /** While there is something to do, doing it is a step towards rest. */
  lemma {:induction false} OneMore(start: S.Product, acts: seq<Act>) returns (act: Act)
    requires ValidStart(start) && Fair(start, acts) && !Quiet(Play(Begin(start), acts))
    ensures !act.Place? && Fair(start, acts + [act])
    ensures Measure(Play(Begin(start), acts + [act])) == Measure(Play(Begin(start), acts)) - 1
    ensures KeepsTime(Play(Begin(start), acts), Play(Begin(start), acts + [act]))
  {
    var c := Play(Begin(start), acts);
    CleanRun(start, acts);
    act := InGoodTime(start, c);
    assert (acts + [act])[..|acts|] == acts;
    assert Play(Begin(start), acts + [act]) == Do(c, act);
    MeasureDrops(c, act);
  }

  ghost predicate NonePlaced(acts: seq<Act>) {
    forall i :: 0 <= i < |acts| ==> !acts[i].Place?
  }

  /** The run is fair and leaves nothing to do. */
  ghost predicate AtRest(start: S.Product, acts: seq<Act>) {
    Fair(start, acts) && Quiet(Play(Begin(start), acts))
  }

  /** The whole run ends at rest, and was in time as far as this part of it was. */
  ghost predicate Rests(start: S.Product, part: seq<Act>, whole: seq<Act>) {
    AtRest(start, whole) && KeepsTime(Play(Begin(start), part), Play(Begin(start), whole))
  }

  lemma {:induction false} RestLater(start: S.Product, acts: seq<Act>, later: seq<Act>, whole: seq<Act>)
    requires Rests(start, later, whole) && KeepsTime(Play(Begin(start), acts), Play(Begin(start), later))
    ensures Rests(start, acts, whole)
  {
    StillKept(Play(Begin(start), acts), Play(Begin(start), later), Play(Begin(start), whole));
  }

  lemma StillKept(a: Clean, b: Clean, c: Clean)
    requires KeepsTime(a, b) && KeepsTime(b, c)
    ensures KeepsTime(a, c)
  {
  }

  lemma NonePlacedBefore(acts: seq<Act>, act: Act, rest: seq<Act>)
    requires !act.Place? && NonePlaced(rest)
    ensures NonePlaced([act] + rest) && acts + ([act] + rest) == acts + [act] + rest
  {
  }

  /**
   From every point of a fair run the end is near: at most ten further acts per order lead to rest, and what was heard
   in time so far will have been heard in time.
   */
  lemma {:induction false} RestIsReached(start: S.Product, acts: seq<Act>, left: nat) returns (more: seq<Act>)
    requires ValidStart(start) && Fair(start, acts) && left == Measure(Play(Begin(start), acts))
    ensures Rests(start, acts, acts + more) && NonePlaced(more) && |more| <= left
    decreases left
  {
    if Quiet(Play(Begin(start), acts)) {
      more := [];
      assert acts + more == acts;
    } else {
      var act := OneMore(start, acts);
      WorkIsBounded(start, acts + [act]);
      var rest := RestIsReached(start, acts + [act], left - 1);
      RestLater(start, acts, acts + [act], acts + [act] + rest);
      NonePlacedBefore(acts, act, rest);
      more := [act] + rest;
    }
  }
}

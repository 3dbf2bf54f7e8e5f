/** Payment service: charge, decline and refund. */
module Payments {
  import opened Events
  import opened Idempotency

  datatype PaymentStatus = Pending | Completed | Failed | Refunded

  datatype Row = Row(order: nat, amount: int, status: PaymentStatus, key: Key)

  /** Money the external gateway actually moved. */
  datatype Transfer = Charge(order: nat, amount: int) | Refund(order: nat, amount: int)

  /** The payments table, the outbox, and the gateway's own books. */
  datatype Db = Db(rows: seq<Row>, outbox: Outbox, ledger: seq<Transfer>)

  /** Choices made outside the service during one delivery. */
  datatype World = World(approve: bool, lookupFails: bool, fault: Fault)

  predicate HasKey(rows: seq<Row>, key: Key) {
    exists i :: 0 <= i < |rows| && rows[i].key == key
  }

  /** Newest payment of an order, or -1. */
  function FindByOrder(rows: seq<Row>, order: nat): (i: int)
    ensures -1 <= i < |rows|
    ensures i >= 0 ==> rows[i].order == order
    ensures forall j :: i < j < |rows| ==> rows[j].order != order
  {
    if rows == [] then -1
    else if rows[|rows| - 1].order == order then |rows| - 1
    else FindByOrder(rows[..|rows| - 1], order)
  }

  /** HandleOrderCreated. A failing lookup is taken for "not found", as in the source. */
  function OnOrderCreated(db: Db, id: EventId, order: nat, amount: int, uuid: EventId, w: World): Reply<Db> {
    var key := Key(order, id);
    if !w.lookupFails && HasKey(db.rows, key) then Reply(db, true)
    else if w.fault == AtBegin then Reply(db, false)
    else if !w.approve then
      Reply(if Commits(w.fault) then db.(outbox := db.outbox[uuid := PaymentFailed(order)]) else db, false)
    else
      var charged := db.(ledger := db.ledger + [Charge(order, amount)]);
      if w.fault == AtWrite || HasKey(db.rows, key) then Reply(charged, false)
      else
        var stored := charged.(rows := db.rows + [Row(order, amount, Completed, key)]);
        if !Commits(w.fault) then Reply(stored, false)
        else Reply(stored.(outbox := db.outbox[uuid := PaymentCompleted(order, |db.rows|, amount)]),
                   w.fault != AfterCommit)
  }

  /** HandleStockReservationFailed: the compensating refund. */
  function OnStockReservationFailed(db: Db, order: nat, uuid: EventId, fault: Fault): Reply<Db> {
    var i := FindByOrder(db.rows, order);
    if fault == AtLookup || i < 0 then Reply(db, false)
    else if db.rows[i].status == Refunded then Reply(db, true)
    else if fault == AtBegin || fault == AtGateway then Reply(db, false)
    else
      var amount := db.rows[i].amount;
      var paidBack := db.(ledger := db.ledger + [Refund(order, amount)]);
      if fault == AtWrite then Reply(paidBack, false)
      else
        var stored := paidBack.(rows := db.rows[i := db.rows[i].(status := Refunded)]);
        if !Commits(fault) then Reply(stored, false)
        else Reply(stored.(outbox := db.outbox[uuid := PaymentRefunded(order, i, amount)]), fault != AfterCommit)
  }

  predicate Consumes(body: Event) {
    body.OrderCreated? || body.StockReservationFailed?
  }

  /** The bare handler the topic selects. */
  function Handle(db: Db, m: Message, uuid: EventId, w: World): Reply<Db>
    requires Consumes(m.body)
  {
    match m.body
    case OrderCreated(order, amount, _) => OnOrderCreated(db, m.id, order, amount, uuid, w)
    case StockReservationFailed(order, _) => OnStockReservationFailed(db, order, uuid, w.fault)
  }

  /** HandleMessage: an unknown topic is dropped without touching the store. */
  function Receive(node: Node<Db>, m: Message, uuid: EventId, redis: Redis, w: World): Node<Db> {
    if Consumes(m.body) then Guard(node, m.id, redis, Handle(node.db, m, uuid, w)) else node
  }

  /** The domain object. */
  class Payment {
    var status: PaymentStatus
    var reason: string

    constructor (status: PaymentStatus)
      ensures this.status == status && reason == ""
    {
      this.status := status;
      reason := "";
    }

    predicate CanRefund()
      reads this
    {
      status == Completed
    }

    method Refund(reason: string) returns (ok: bool)
      modifies this
      ensures ok <==> old(CanRefund())
      ensures ok ==> status == Refunded && this.reason == reason
      ensures !ok ==> status == old(status) && this.reason == old(this.reason)
    {
      if !CanRefund() {
        return false;
      }
      status := Refunded;
      this.reason := reason;
      return true;
    }
  }

  /** One Kafka delivery together with everything the outside world decides about it. */
  datatype Arrival = Arrival(message: Message, uuid: EventId, redis: Redis, world: World)

  // ------------------------------------------------ what the operations mean

  /**
   The charge, effect by effect. A key that is found means "done". Otherwise the gateway decides: it takes
   the order's amount before the row is written, the row before its event, and the handler reports success
   only if all three are there.
   */
  lemma ChargeMeans(db: Db, id: EventId, order: nat, amount: int, uuid: EventId, w: World)
    ensures var r := OnOrderCreated(db, id, order, amount, uuid, w);
      var paid := exists i :: 0 <= i < |db.rows| && db.rows[i].key == Key(order, id);
      var asked := (w.lookupFails || !paid) && w.fault != AtBegin;
      var stored := asked && w.approve && !paid && w.fault != AtWrite;
      var commits := w.fault != AtOutbox && w.fault != AtCommit;
      && r.db.ledger == db.ledger + (if asked && w.approve then [Charge(order, amount)] else [])
      && r.db.rows == db.rows + (if stored then [Row(order, amount, Completed, Key(order, id))] else [])
      && (stored && commits ==> r.db.outbox == db.outbox[uuid := PaymentCompleted(order, |db.rows|, amount)])
      && (asked && !w.approve && commits ==> r.db.outbox == db.outbox[uuid := PaymentFailed(order)])
      && (!(stored && commits) && !(asked && !w.approve && commits) ==> r.db.outbox == db.outbox)
      && (r.ok <==> (paid && !w.lookupFails) || (stored && commits && w.fault != AfterCommit))
  {
  }

  /** The newest payment of the order. */
  predicate Newest(rows: seq<Row>, order: nat, i: nat) {
    i < |rows| && rows[i].order == order && forall j :: i < j < |rows| ==> rows[j].order != order
  }

  /**
   The refund, effect by effect: the newest payment's amount goes back before its row turns REFUNDED, and
   that before the event; without a payment it is an error, and with a refunded one success without work.
   */
  lemma RefundMeans(db: Db, order: nat, uuid: EventId, fault: Fault, i: nat)
    requires Newest(db.rows, order, i)
    ensures var r, row := OnStockReservationFailed(db, order, uuid, fault), db.rows[i];
      var asked := fault !in {AtLookup, AtBegin, AtGateway} && row.status != Refunded;
      var stored := asked && fault != AtWrite;
      var announced := stored && fault != AtOutbox && fault != AtCommit;
      && r.db.ledger == db.ledger + (if asked then [Refund(order, row.amount)] else [])
      && r.db.rows == (if stored then db.rows[i := Row(order, row.amount, Refunded, row.key)] else db.rows)
      && r.db.outbox == (if announced then db.outbox[uuid := PaymentRefunded(order, i, row.amount)] else db.outbox)
      && (r.ok <==> (row.status == Refunded && fault != AtLookup) || (announced && fault != AfterCommit))
  {
  }

  lemma NothingToRefund(db: Db, order: nat, uuid: EventId, fault: Fault)
    requires forall i :: 0 <= i < |db.rows| ==> db.rows[i].order != order
    ensures OnStockReservationFailed(db, order, uuid, fault) == Reply(db, false)
  {
  }

  /** What reaches which handler: a remembered event and an unknown topic reach none. */
  lemma ReceiveMeans(node: Node<Db>, m: Message, uuid: EventId, redis: Redis, w: World)
    ensures var node', drops := Receive(node, m, uuid, redis, w), m.id in node.done && !redis.checkFails;
      match m.body
      case OrderCreated(order, amount, _) =>
        drops || node'.db == OnOrderCreated(node.db, m.id, order, amount, uuid, w).db
      case StockReservationFailed(order, _) =>
        drops || node'.db == OnStockReservationFailed(node.db, order, uuid, w.fault).db
      case _ => node' == node
    ensures m.id in node.done && !redis.checkFails ==> Receive(node, m, uuid, redis, w) == node
  {
  }

  /** Handled without a fault and with the store up, an approved charge is remembered, a declined one is not. */
  lemma ChargeRemembered(node: Node<Db>, m: Message, uuid: EventId, redis: Redis, w: World)
    requires m.body.OrderCreated? && w.fault == NoFault && !w.lookupFails && !redis.reserveFails
    ensures m.id in Receive(node, m, uuid, redis, w).done <==>
            m.id in node.done || w.approve || HasKey(node.db.rows, Key(m.body.order, m.id))
  {
  }

  /** ... and so is a refund, if there is a payment to refund. */
  lemma RefundRemembered(node: Node<Db>, m: Message, uuid: EventId, redis: Redis, w: World)
    requires m.body.StockReservationFailed? && w.fault == NoFault && !redis.reserveFails
    ensures m.id in Receive(node, m, uuid, redis, w).done <==>
            m.id in node.done || exists i :: 0 <= i < |node.db.rows| && node.db.rows[i].order == m.body.order
  {
  }

  /** The service and its store, from before the first message of a claim to after the last. */
  ghost predicate Trace(nodes: seq<Node<Db>>, claim: seq<Arrival>) {
    && |nodes| == |claim| + 1
    && forall i :: 0 <= i < |claim| ==>
         var a := claim[i];
         nodes[i + 1] == Receive(nodes[i], a.message, a.uuid, a.redis, a.world)
  }

  /** The service with its tables; order and payment rows are written outside the transaction. */
  class PaymentService {
    var rows: seq<Row>
    var outbox: Outbox
    var ledger: seq<Transfer>

    constructor ()
      ensures Value() == Db([], map[], [])
    {
      rows := [];
      outbox := map[];
      ledger := [];
    }

    function Value(): Db
      reads this
    {
      Db(rows, outbox, ledger)
    }

    /** paymentRepo.Create: autocommitted insert under the unique key. */
    method Create(row: Row, fault: Fault) returns (id: nat, ok: bool)
      modifies this`rows
      ensures ok <==> fault != AtWrite && !HasKey(old(rows), row.key)
      ensures id == |old(rows)|
      ensures rows == if ok then old(rows) + [row] else old(rows)
    {
      id := |rows|;
      ok := fault != AtWrite && !HasKey(rows, row.key);
      if ok {
        rows := rows + [row];
      }
    }

    /** Insert into the outbox inside a transaction, then commit it. */
    method InsertAndCommit(uuid: EventId, body: Event, fault: Fault) returns (committed: bool)
      modifies this`outbox
      ensures committed <==> Commits(fault)
      ensures outbox == if committed then old(outbox)[uuid := body] else old(outbox)
    {
      var tx := outbox;
      if fault == AtOutbox {
        return false;
      }
      tx := tx[uuid := body];
      if fault == AtCommit {
        return false;
      }
      outbox := tx;
      return true;
    }

    method HandleOrderCreated(id: EventId, order: nat, amount: int, uuid: EventId, w: World) returns (ok: bool)
      modifies this
      ensures Reply(Value(), ok) == OnOrderCreated(old(Value()), id, order, amount, uuid, w)
    {
      var key := Key(order, id);
      if !w.lookupFails && HasKey(rows, key) {
        return true;
      }
      if w.fault == AtBegin {
        return false;
      }
      if !w.approve {
        var _ := InsertAndCommit(uuid, PaymentFailed(order), w.fault);
        return false;
      }
      ledger := ledger + [Charge(order, amount)];
      var payment, created := Create(Row(order, amount, Completed, key), w.fault);
      if !created {
        return false;
      }
      var committed := InsertAndCommit(uuid, PaymentCompleted(order, payment, amount), w.fault);
      return committed && w.fault != AfterCommit;
    }

    method HandleStockReservationFailed(order: nat, uuid: EventId, fault: Fault) returns (ok: bool)
      modifies this
      ensures Reply(Value(), ok) == OnStockReservationFailed(old(Value()), order, uuid, fault)
    {
      var i := FindByOrder(rows, order);
      if fault == AtLookup || i < 0 {
        return false;
      }
      if rows[i].status == Refunded {
        return true;
      }
      if fault == AtBegin {
        return false;
      }
      if fault == AtGateway {
        return false;
      }
      ledger := ledger + [Refund(order, rows[i].amount)];
      if fault == AtWrite {
        return false;
      }
      rows := rows[i := rows[i].(status := Refunded)];
      var committed := InsertAndCommit(uuid, PaymentRefunded(order, i, rows[i].amount), fault);
      return committed && fault != AfterCommit;
    }
  }

  /** The Kafka consumer of the payment service: wrapper, dispatch and offset marks. */
  class PaymentConsumer {
    const service: PaymentService
    const store: Store
    var marked: nat

    constructor (service: PaymentService, store: Store)
      ensures this.service == service && this.store == store && marked == 0
    {
      this.service := service;
      this.store := store;
      marked := 0;
    }

    function Value(): Node<Db>
      reads service, store
    {
      Node(service.Value(), store.keys)
    }

    method HandleMessage(a: Arrival) returns (ok: bool)
      modifies service, store
      ensures Value() == Receive(old(Value()), a.message, a.uuid, a.redis, a.world)
      ensures var m := a.message;
        ok <==> !Consumes(m.body) || Skips(old(Value()), m.id, a.redis) ||
                Handle(old(service.Value()), m, a.uuid, a.world).ok
    {
      var m := a.message;
      match m.body {
        case OrderCreated(order, amount, _) =>
          var processed := store.IsProcessed(m.id, a.redis.checkFails);
          if processed {
            return true;
          }
          ok := service.HandleOrderCreated(m.id, order, amount, a.uuid, a.world);
        case StockReservationFailed(order, _) =>
          var processed := store.IsProcessed(m.id, a.redis.checkFails);
          if processed {
            return true;
          }
          ok := service.HandleStockReservationFailed(order, a.uuid, a.world.fault);
        case _ =>
          return true;
      }
      if !ok {
        return false;
      }
      var _ := store.Reserve(m.id, a.redis.reserveFails);
    }

    /** ConsumeClaim: strictly one message after the other, each marked even when its handler failed. */
    method ConsumeClaim(claim: seq<Arrival>) returns (ghost nodes: seq<Node<Db>>)
      modifies this`marked, service, store
      ensures Trace(nodes, claim) && nodes[0] == old(Value()) && Value() == nodes[|claim|]
      ensures marked == old(marked) + |claim|
    {
      nodes := [Value()];
      for n := 0 to |claim|
        invariant Trace(nodes, claim[..n]) && nodes[0] == old(Value()) && Value() == nodes[n]
        invariant marked == old(marked) + n
      {
        var _ := HandleMessage(claim[n]);
        marked := marked + 1;
        nodes := nodes + [Value()];
      }
      assert claim[..|claim|] == claim;
    }
  }
}

/** Order service: starts the saga and follows it through the order's status. */
module Orders {
  import opened Events
  import opened Idempotency

  datatype OrderStatus =
    | Pending | PaymentProcessing | StockReserving | DeliveryPreparing | Completed | Canceled | Failed

  /** The transition table of the domain object; terminal statuses have no entry. */
  function Allowed(status: OrderStatus): seq<OrderStatus> {
    match status
    case Pending => [PaymentProcessing, Canceled, Failed]
    case PaymentProcessing => [StockReserving, Canceled, Failed]
    case StockReserving => [DeliveryPreparing, Canceled, Failed]
    case DeliveryPreparing => [Completed, Canceled, Failed]
    case _ => []
  }

  predicate Terminal(status: OrderStatus) {
    status.Completed? || status.Canceled? || status.Failed?
  }

  /** The domain object. */
  class Order {
    var status: OrderStatus

    constructor (status: OrderStatus)
      ensures this.status == status
    {
      this.status := status;
    }

    method CanTransitionTo(next: OrderStatus) returns (can: bool)
      ensures can <==> next in Allowed(status)
    {
      var allowed := Allowed(status);
      for i := 0 to |allowed|
        invariant next !in allowed[..i]
      {
        if allowed[i] == next {
          return true;
        }
      }
      return false;
    }

    method TransitionTo(next: OrderStatus) returns (ok: bool)
      modifies this
      ensures ok <==> next in Allowed(old(status))
      ensures status == if ok then next else old(status)
    {
      ok := CanTransitionTo(next);
      if ok {
        status := next;
      }
    }
  }

  datatype Row = Row(amount: int, quantity: int, status: OrderStatus, version: nat, key: string)

  /** Order identifiers are positions in the table. */
  datatype Db = Db(rows: seq<Row>, outbox: Outbox)

  /** Position of the order carrying an idempotency key, or -1. */
  function FindByKey(rows: seq<Row>, key: string): (i: int)
    ensures -1 <= i < |rows|
    ensures i >= 0 ==> rows[i].key == key
    ensures i < 0 ==> forall j :: 0 <= j < |rows| ==> rows[j].key != key
  {
    if rows == [] then -1
    else if rows[|rows| - 1].key == key then |rows| - 1
    else FindByKey(rows[..|rows| - 1], key)
  }

  datatype Command = Command(amount: int, quantity: int, key: string)

  datatype CreateResult =
    | Created(order: nat, status: OrderStatus)
    | Existing(order: nat, status: OrderStatus)
    | InvalidOrder
    | CreateFailed

  datatype CreateReply = CreateReply(db: Db, result: CreateResult)

  /**
   CreateOrder. The unique index covers the empty key as well, which the lookup skips; the row is
   written outside the transaction that carries the event.
   */
  function OnCreate(db: Db, cmd: Command, uuid: EventId, lookupFails: bool, fault: Fault): CreateReply {
    var existing := FindByKey(db.rows, cmd.key);
    if cmd.key != "" && !lookupFails && existing >= 0 then CreateReply(db, Existing(existing, db.rows[existing].status))
    else if cmd.amount <= 0 || cmd.quantity <= 0 then CreateReply(db, InvalidOrder)
    else if fault == AtBegin || fault == AtWrite || existing >= 0 then CreateReply(db, CreateFailed)
    else
      var stored := db.(rows := db.rows + [Row(cmd.amount, cmd.quantity, Pending, 0, cmd.key)]);
      if !Commits(fault) then CreateReply(stored, CreateFailed)
      else CreateReply(stored.(outbox := db.outbox[uuid := OrderCreated(|db.rows|, cmd.amount, cmd.quantity)]),
                       if fault == AfterCommit then CreateFailed else Created(|db.rows|, Pending))
  }

  predicate Consumes(body: Event) {
    body.PaymentCompleted? || body.PaymentFailed? || body.StockReserved? ||
    body.StockReservationFailed? || body.DeliveryStarted? || body.DeliveryFailed?
  }

  datatype Wish = Keep | Write(status: OrderStatus)

  /** What a handler wants to write, from the status it read. Only the forward handlers look at it. */
  function Target(body: Event, seen: OrderStatus): Wish {
    match body
    case PaymentCompleted(_, _, _) => if seen.Pending? then Write(StockReserving) else Keep
    case StockReserved(_, _, _) => if seen.StockReserving? then Write(DeliveryPreparing) else Keep
    case DeliveryStarted(_, _) => if seen.DeliveryPreparing? then Write(Completed) else Keep
    case PaymentFailed(_) => Write(Canceled)
    case StockReservationFailed(_, _) => Write(Failed)
    case DeliveryFailed(_) => Write(Failed)
    case _ => Keep
  }

  /** A handler between its read and its write. */
  datatype Op = Op(message: Message, seen: OrderStatus, version: nat)

  /** UpdateStatusWithVersion. */
  function Cas(rows: seq<Row>, order: nat, status: OrderStatus, version: nat): seq<Row> {
    if order < |rows| && rows[order].version == version
    then rows[order := rows[order].(status := status, version := version + 1)]
    else rows
  }

  /** The write half of a handler; a lost compare-and-set is ignored. */
  function Finish(rows: seq<Row>, op: Op): seq<Row> {
    match Target(op.message.body, op.seen)
    case Keep => rows
    case Write(status) => Cas(rows, op.message.body.order, status, op.version)
  }

  /** A handler whose read and write meet no other handler. */
  function Handle(db: Db, m: Message, fault: Fault): Reply<Db> {
    var order := m.body.order;
    if fault == AtLookup || order >= |db.rows| then Reply(db, false)
    else
      var op := Op(m, db.rows[order].status, db.rows[order].version);
      if Target(m.body, op.seen).Keep? then Reply(db, true)
      else if fault == AtWrite then Reply(db, false)
      else Reply(db.(rows := Finish(db.rows, op)), true)
  }

  /** HandleMessage: an unknown topic is dropped without touching the store. */
  function Receive(node: Node<Db>, m: Message, redis: Redis, fault: Fault): Node<Db> {
    if Consumes(m.body) then Guard(node, m.id, redis, Handle(node.db, m, fault)) else node
  }

  // ------------------------------------------------ what the operations mean

  /** A later stage of an order that goes well. */
  function Stage(status: OrderStatus): nat {
    match status
    case Pending => 0
    case PaymentProcessing => 1
    case StockReserving => 2
    case DeliveryPreparing => 3
    case _ => 4
  }

  /** An open order may be canceled or fail, or go on to the very next stage; a terminal one stays. */
  lemma AllowedIff(status: OrderStatus, next: OrderStatus)
    ensures next in Allowed(status) <==>
            !Terminal(status) && (next.Canceled? || next.Failed? || Stage(next) == Stage(status) + 1)
  {
  }

  /** What CreateOrder reports is what it did: every outcome, exactly when it occurs and what it leaves. */
  lemma CreateMeans(db: Db, cmd: Command, uuid: EventId, lookupFails: bool, fault: Fault)
    ensures var r := OnCreate(db, cmd, uuid, lookupFails, fault);
      var free := forall i :: 0 <= i < |db.rows| ==> db.rows[i].key != cmd.key;
      var fails := fault in {AtBegin, AtWrite, AtOutbox, AtCommit, AfterCommit};
      && (r.result.Existing? <==> cmd.key != "" && !lookupFails && !free)
      && (r.result.InvalidOrder? <==> !r.result.Existing? && (cmd.amount <= 0 || cmd.quantity <= 0))
      && (r.result.Created? <==> free && cmd.amount > 0 && cmd.quantity > 0 && !fails)
      && (r.result.Existing? ==> r.db == db && Reports(db.rows, r.result, cmd.key))
      && (r.result.InvalidOrder? ==> r.db == db)
      && (r.result.Created? ==> r.result == Created(|db.rows|, Pending))
  {
  }

  /** The result names an order with this key, and its status. */
  predicate Reports(rows: seq<Row>, result: CreateResult, key: string)
    requires result.Existing?
  {
    && result.order < |rows|
    && rows[result.order].key == key && rows[result.order].status == result.status
  }

  /** The row and the event carry the command's amount and quantity; the event never comes without the row. */
  lemma CreateStores(db: Db, cmd: Command, uuid: EventId, lookupFails: bool, fault: Fault)
    ensures var r, order := OnCreate(db, cmd, uuid, lookupFails, fault), |db.rows|;
      var rows := db.rows + [Row(cmd.amount, cmd.quantity, Pending, 0, cmd.key)];
      var announced := db.outbox[uuid := OrderCreated(order, cmd.amount, cmd.quantity)];
      && (r.result.Created? ==> r.db == Db(rows, announced))
      && (r.result.CreateFailed? ==>
            r.db == if |db.rows| == |r.db.rows| then db
                    else if fault == AtOutbox || fault == AtCommit then Db(rows, db.outbox) else Db(rows, announced))
      && (|r.db.rows| > |db.rows| <==>
            FindByKey(db.rows, cmd.key) < 0 && cmd.amount > 0 && cmd.quantity > 0 && fault !in {AtBegin, AtWrite})
  {
  }

  /** What reaches a handler: not a remembered event, and none of the three topics that are not read. */
  lemma ReceiveMeans(node: Node<Db>, m: Message, redis: Redis, fault: Fault)
    ensures var node', drops := Receive(node, m, redis, fault), m.id in node.done && !redis.checkFails;
      if drops || m.body.OrderCreated? || m.body.PaymentRefunded? || m.body.StockRestored? then node' == node
      else
        && node'.db == Handle(node.db, m, fault).db
        && (m.id in node'.done <==> m.id in node.done || (Handle(node.db, m, fault).ok && !redis.reserveFails))
  {
  }

  class OrderService {
    var rows: seq<Row>
    var outbox: Outbox

    constructor ()
      ensures Value() == Db([], map[])
    {
      rows := [];
      outbox := map[];
    }

    function Value(): Db
      reads this
    {
      Db(rows, outbox)
    }

    method CreateOrder(cmd: Command, uuid: EventId, lookupFails: bool, fault: Fault) returns (result: CreateResult)
      modifies this
      ensures CreateReply(Value(), result) == OnCreate(old(Value()), cmd, uuid, lookupFails, fault)
    {
      if cmd.key != "" {
        var existing := FindByKey(rows, cmd.key);
        if !lookupFails && existing >= 0 {
          return Existing(existing, rows[existing].status);
        }
      }
      if cmd.amount <= 0 {
        return InvalidOrder;
      }
      if cmd.quantity <= 0 {
        return InvalidOrder;
      }
      if fault == AtBegin {
        return CreateFailed;
      }
      if fault == AtWrite || FindByKey(rows, cmd.key) >= 0 {
        return CreateFailed;
      }
      var order := |rows|;
      rows := rows + [Row(cmd.amount, cmd.quantity, Pending, 0, cmd.key)];
      var tx := outbox;
      if fault == AtOutbox {
        return CreateFailed;
      }
      tx := tx[uuid := OrderCreated(order, cmd.amount, cmd.quantity)];
      if fault == AtCommit {
        return CreateFailed;
      }
      outbox := tx;
      return if fault == AfterCommit then CreateFailed else Created(order, rows[order].status);
    }

    /** The versioned update; `won` says whether a row matched. */
    method UpdateStatusWithVersion(order: nat, status: OrderStatus, version: nat) returns (won: bool)
      modifies this`rows
      ensures rows == Cas(old(rows), order, status, version)
      ensures won <==> order < |old(rows)| && old(rows)[order].version == version
      ensures var was := old(rows);
        rows == if won then was[order := was[order].(status := status, version := version + 1)] else was
    {
      won := order < |rows| && rows[order].version == version;
      if won {
        rows := rows[order := rows[order].(status := status, version := rows[order].version + 1)];
      }
    }

    method HandlePaymentCompleted(m: Message, fault: Fault) returns (ok: bool)
      requires m.body.PaymentCompleted?
      modifies this`rows
      ensures Reply(Value(), ok) == Handle(old(Value()), m, fault)
      ensures var was, id := old(rows), m.body.order;
        && (ok <==> fault != AtLookup && id < |was| && (was[id].status.Pending? ==> fault != AtWrite))
        && rows == if ok && was[id].status.Pending?
                   then was[id := was[id].(status := StockReserving, version := was[id].version + 1)] else was
    {
      var id := m.body.order;
      if fault == AtLookup || id >= |rows| {
        return false;
      }
      var order := rows[id];
      if order.status == Pending {
        if fault == AtWrite {
          return false;
        }
        var _ := UpdateStatusWithVersion(id, StockReserving, order.version);
      }
      return true;
    }

    method HandlePaymentFailed(m: Message, fault: Fault) returns (ok: bool)
      requires m.body.PaymentFailed?
      modifies this`rows
      ensures Reply(Value(), ok) == Handle(old(Value()), m, fault)
      ensures var was, id := old(rows), m.body.order;
        && (ok <==> fault != AtLookup && id < |was| && fault != AtWrite)
        && rows == if ok then was[id := was[id].(status := Canceled, version := was[id].version + 1)] else was
    {
      ok := WriteUnguarded(m, Canceled, fault);
    }

    method HandleStockReserved(m: Message, fault: Fault) returns (ok: bool)
      requires m.body.StockReserved?
      modifies this`rows
      ensures Reply(Value(), ok) == Handle(old(Value()), m, fault)
      ensures var was, id := old(rows), m.body.order;
        && (ok <==> fault != AtLookup && id < |was| && (was[id].status.StockReserving? ==> fault != AtWrite))
        && rows == if ok && was[id].status.StockReserving?
                   then was[id := was[id].(status := DeliveryPreparing, version := was[id].version + 1)] else was
    {
      var id := m.body.order;
      if fault == AtLookup || id >= |rows| {
        return false;
      }
      var order := rows[id];
      if order.status == StockReserving {
        if fault == AtWrite {
          return false;
        }
        var _ := UpdateStatusWithVersion(id, DeliveryPreparing, order.version);
      }
      return true;
    }

    method HandleStockReservationFailed(m: Message, fault: Fault) returns (ok: bool)
      requires m.body.StockReservationFailed?
      modifies this`rows
      ensures Reply(Value(), ok) == Handle(old(Value()), m, fault)
      ensures var was, id := old(rows), m.body.order;
        && (ok <==> fault != AtLookup && id < |was| && fault != AtWrite)
        && rows == if ok then was[id := was[id].(status := Failed, version := was[id].version + 1)] else was
    {
      ok := WriteUnguarded(m, Failed, fault);
    }

    method HandleDeliveryStarted(m: Message, fault: Fault) returns (ok: bool)
      requires m.body.DeliveryStarted?
      modifies this`rows
      ensures Reply(Value(), ok) == Handle(old(Value()), m, fault)
      ensures var was, id := old(rows), m.body.order;
        && (ok <==> fault != AtLookup && id < |was| && (was[id].status.DeliveryPreparing? ==> fault != AtWrite))
        && rows == if ok && was[id].status.DeliveryPreparing?
                   then was[id := was[id].(status := Completed, version := was[id].version + 1)] else was
    {
      var id := m.body.order;
      if fault == AtLookup || id >= |rows| {
        return false;
      }
      var order := rows[id];
      if order.status == DeliveryPreparing {
        if fault == AtWrite {
          return false;
        }
        var _ := UpdateStatusWithVersion(id, Completed, order.version);
      }
      return true;
    }

    method HandleDeliveryFailed(m: Message, fault: Fault) returns (ok: bool)
      requires m.body.DeliveryFailed?
      modifies this`rows
      ensures Reply(Value(), ok) == Handle(old(Value()), m, fault)
      ensures var was, id := old(rows), m.body.order;
        && (ok <==> fault != AtLookup && id < |was| && fault != AtWrite)
        && rows == if ok then was[id := was[id].(status := Failed, version := was[id].version + 1)] else was
    {
      ok := WriteUnguarded(m, Failed, fault);
    }

    /** The failure handlers write whatever status they find. */
    method WriteUnguarded(m: Message, status: OrderStatus, fault: Fault) returns (ok: bool)
      requires forall seen :: Target(m.body, seen) == Write(status)
      modifies this`rows
      ensures Reply(Value(), ok) == Handle(old(Value()), m, fault)
      ensures var was, id := old(rows), m.body.order;
        && (ok <==> fault != AtLookup && id < |was| && fault != AtWrite)
        && rows == if ok then was[id := was[id].(status := status, version := was[id].version + 1)] else was
    {
      var id := m.body.order;
      if fault == AtLookup || id >= |rows| || fault == AtWrite {
        return false;
      }
      var order := rows[id];
      var _ := UpdateStatusWithVersion(id, status, order.version);
      return true;
    }
  }

  /** The Kafka consumer of the order service. */
  class OrderConsumer {
    const service: OrderService
    const store: Store

    constructor (service: OrderService, store: Store)
      ensures this.service == service && this.store == store
    {
      this.service := service;
      this.store := store;
    }

    function Value(): Node<Db>
      reads service, store
    {
      Node(service.Value(), store.keys)
    }

    method HandleMessage(m: Message, redis: Redis, fault: Fault) returns (ok: bool)
      modifies service`rows, store
      ensures Value() == Receive(old(Value()), m, redis, fault)
      ensures ok <==> !Consumes(m.body) || Skips(old(Value()), m.id, redis) || Handle(old(service.Value()), m, fault).ok
    {
      if !Consumes(m.body) {
        return true;
      }
      var processed := store.IsProcessed(m.id, redis.checkFails);
      if processed {
        return true;
      }
      ok := Dispatch(m, fault);
      if !ok {
        return false;
      }
      var _ := store.Reserve(m.id, redis.reserveFails);
    }

    method Dispatch(m: Message, fault: Fault) returns (ok: bool)
      requires Consumes(m.body)
      modifies service`rows
      ensures Reply(service.Value(), ok) == Handle(old(service.Value()), m, fault)
    {
      match m.body {
        case PaymentCompleted(_, _, _) => ok := service.HandlePaymentCompleted(m, fault);
        case PaymentFailed(_) => ok := service.HandlePaymentFailed(m, fault);
        case StockReserved(_, _, _) => ok := service.HandleStockReserved(m, fault);
        case StockReservationFailed(_, _) => ok := service.HandleStockReservationFailed(m, fault);
        case DeliveryStarted(_, _) => ok := service.HandleDeliveryStarted(m, fault);
        case DeliveryFailed(_) => ok := service.HandleDeliveryFailed(m, fault);
      }
    }
  }
}

/** Delivery service: the last forward step of the saga. */
module Deliveries {
  import opened Events
  import opened Idempotency

  datatype Row = Row(order: nat, key: Key)

  datatype Db = Db(rows: seq<Row>, outbox: Outbox)

  predicate HasKey(rows: seq<Row>, key: Key) {
    exists i :: 0 <= i < |rows| && rows[i].key == key
  }

  /** HandleStockReserved: the row and its event commit together. */
  function OnStockReserved(db: Db, id: EventId, order: nat, uuid: EventId, fault: Fault): Reply<Db> {
    var key := Key(order, id);
    if fault == AtLookup then Reply(db, false)
    else if HasKey(db.rows, key) then Reply(db, true)
    else if fault == AtBegin || fault == AtWrite || !Commits(fault) then Reply(db, false)
    else Reply(Db(db.rows + [Row(order, key)], db.outbox[uuid := DeliveryStarted(order, |db.rows|)]),
               fault != AfterCommit)
  }

  predicate Consumes(body: Event) {
    body.StockReserved?
  }

  function Handle(db: Db, m: Message, uuid: EventId, fault: Fault): Reply<Db>
    requires Consumes(m.body)
  {
    OnStockReserved(db, m.id, m.body.order, uuid, fault)
  }

  function Receive(node: Node<Db>, m: Message, uuid: EventId, redis: Redis, fault: Fault): Node<Db> {
    if Consumes(m.body) then Guard(node, m.id, redis, Handle(node.db, m, uuid, fault)) else node
  }

  // ------------------------------------------------ what the operations mean

  /** Row and event come together or not at all, and only once per key; only a delivery, old or new, is success. */
  lemma ShipMeans(db: Db, id: EventId, order: nat, uuid: EventId, fault: Fault)
    ensures var r, key := OnStockReserved(db, id, order, uuid, fault), Key(order, id);
      var done := exists i :: 0 <= i < |db.rows| && db.rows[i].key == key;
      var fails := fault in {AtLookup, AtBegin, AtWrite, AtOutbox, AtCommit};
      && (!done && !fails ==>
            r.db == Db(db.rows + [Row(order, key)], db.outbox[uuid := DeliveryStarted(order, |db.rows|)]))
      && (done || fails ==> r.db == db)
      && (r.ok <==> if done then fault != AtLookup else !fails && fault != AfterCommit)
  {
  }

  lemma ReceiveMeans(node: Node<Db>, m: Message, uuid: EventId, redis: Redis, fault: Fault)
    ensures var node', drops := Receive(node, m, uuid, redis, fault), m.id in node.done && !redis.checkFails;
      match m.body
      case StockReserved(order, _, _) => drops || node'.db == OnStockReserved(node.db, m.id, order, uuid, fault).db
      case _ => node' == node
    ensures m.id in node.done && !redis.checkFails ==> Receive(node, m, uuid, redis, fault) == node
  {
  }

  /** Handled without a fault and with the store up, every stock.reserved is remembered. */
  lemma ShipRemembered(node: Node<Db>, m: Message, uuid: EventId, redis: Redis)
    requires m.body.StockReserved? && !redis.reserveFails
    ensures m.id in Receive(node, m, uuid, redis, NoFault).done
  {
  }

  class DeliveryService {
    var rows: seq<Row>
    var outbox: Outbox

    constructor ()
      ensures Value() == Db([], map[])
    {
      rows := [];
      outbox := map[];
    }

    function Value(): Db
      reads this
    {
      Db(rows, outbox)
    }

    method HandleStockReserved(id: EventId, order: nat, uuid: EventId, fault: Fault) returns (ok: bool)
      modifies this
      ensures Reply(Value(), ok) == OnStockReserved(old(Value()), id, order, uuid, fault)
    {
      var key := Key(order, id);
      if fault == AtLookup {
        return false;
      }
      if HasKey(rows, key) {
        return true;
      }
      if fault == AtBegin {
        return false;
      }
      var txRows, txOutbox := rows, outbox;
      if fault == AtWrite {
        return false;
      }
      var delivery := |txRows|;
      txRows := txRows + [Row(order, key)];
      if fault == AtOutbox {
        return false;
      }
      txOutbox := txOutbox[uuid := DeliveryStarted(order, delivery)];
      if fault == AtCommit {
        return false;
      }
      rows, outbox := txRows, txOutbox;
      return fault != AfterCommit;
    }
  }

  /** The consumer closure of the delivery service. */
  class DeliveryConsumer {
    const service: DeliveryService
    const store: Store

    constructor (service: DeliveryService, store: Store)
      ensures this.service == service && this.store == store
    {
      this.service := service;
      this.store := store;
    }

    function Value(): Node<Db>
      reads service, store
    {
      Node(service.Value(), store.keys)
    }

    /** Subscribed to one topic only, so every message it sees is a stock.reserved. */
    method HandleMessage(m: Message, uuid: EventId, redis: Redis, fault: Fault) returns (ok: bool)
      requires Consumes(m.body)
      modifies service, store
      ensures Value() == Receive(old(Value()), m, uuid, redis, fault)
      ensures ok <==> Skips(old(Value()), m.id, redis) || Handle(old(service.Value()), m, uuid, fault).ok
    {
      var processed := store.IsProcessed(m.id, redis.checkFails);
      if processed {
        return true;
      }
      ok := service.HandleStockReserved(m.id, m.body.order, uuid, fault);
      if !ok {
        return false;
      }
      var _ := store.Reserve(m.id, redis.reserveFails);
    }
  }
}

/** Inventory service: reserve, fail and compensate. */
module Stock {
  import opened Events
  import opened Idempotency

  /** The status set of the domain type; the database enumeration spells the third one CANCELED. */
  datatype ReservationStatus = Reserved | Confirmed | Cancelled | Expired

  datatype Reservation = Reservation(order: nat, quantity: int, status: ReservationStatus, key: Key)

  /** The quantities and the version of the one product row the saga uses. */
  datatype Level = Level(available: int, reserved: int, version: int)
  {
    function Take(q: int): Level { Level(available - q, reserved + q, version + 1) }
    function Give(q: int): Level { Level(available + q, reserved - q, version + 1) }
  }

  datatype Product = Missing | Found(level: Level)

  datatype Db = Db(product: Product, reservations: seq<Reservation>, outbox: Outbox)

  /** Every reservation is for one unit, whatever the order's quantity. */
  const UNIT := 1

  predicate HasKey(rows: seq<Reservation>, key: Key) {
    exists i :: 0 <= i < |rows| && rows[i].key == key
  }

  /** The first RESERVED reservation of the order, or -1. */
  function FindReserved(rows: seq<Reservation>, order: nat): (i: int)
    ensures -1 <= i < |rows|
    ensures i >= 0 ==> rows[i].order == order && rows[i].status == Reserved
    ensures forall j :: 0 <= j < (if i < 0 then |rows| else i) ==>
              !(rows[j].order == order && rows[j].status == Reserved)
  {
    if rows == [] then -1
    else if rows[0].order == order && rows[0].status == Reserved then 0
    else
      var i := FindReserved(rows[1..], order);
      if i < 0 then -1 else i + 1
  }

  /** publishStockReservationFailed: commits the event alone and always reports an error. */
  function PublishFailed(db: Db, order: nat, reason: StockFailure, uuid: EventId, fault: Fault): Reply<Db> {
    Reply(if Commits(fault) then db.(outbox := db.outbox[uuid := StockReservationFailed(order, reason)]) else db,
          false)
  }

  /** The row, reservation and event that a successful reservation commits, from the level it read. */
  function ReserveFrom(db: Db, read: Level, key: Key, uuid: EventId): Db {
    Db(Found(read.Take(UNIT)),
       db.reservations + [Reservation(key.order, UNIT, Reserved, key)],
       db.outbox[uuid := StockReserved(key.order, |db.reservations|, UNIT)])
  }

  /** The same for giving one reservation back. The UPDATE of its status has no status guard. */
  function RestoreFrom(db: Db, read: Level, i: nat, uuid: EventId): Db
    requires i < |db.reservations|
  {
    var r := db.reservations[i];
    Db(Found(read.Give(r.quantity)),
       db.reservations[i := r.(status := Cancelled)],
       db.outbox[uuid := StockRestored(r.order, i, r.quantity)])
  }

  /** HandlePaymentCompleted, run alone (module Interleaving justifies that). */
  function OnPaymentCompleted(db: Db, id: EventId, order: nat, uuid: EventId, fault: Fault): Reply<Db> {
    var key := Key(order, id);
    if fault == AtLookup then Reply(db, false)
    else if HasKey(db.reservations, key) then Reply(db, true)
    else if fault == AtBegin || fault == AtRead then Reply(db, false)
    else if db.product.Missing? then PublishFailed(db, order, ProductNotFound, uuid, fault)
    else if db.product.level.available < UNIT then PublishFailed(db, order, InsufficientStock, uuid, fault)
    else if fault == AtWrite || !Commits(fault) then Reply(db, false)
    else Reply(ReserveFrom(db, db.product.level, key, uuid), fault != AfterCommit)
  }

  /** HandlePaymentRefunded: give the units of the order's reservation back. */
  function OnPaymentRefunded(db: Db, order: nat, uuid: EventId, fault: Fault): Reply<Db> {
    var i := FindReserved(db.reservations, order);
    if fault == AtLookup then Reply(db, false)
    else if i < 0 then Reply(db, true)
    else if fault == AtBegin || fault == AtRead || db.product.Missing? then Reply(db, false)
    else if fault == AtWrite || !Commits(fault) then Reply(db, false)
    else Reply(RestoreFrom(db, db.product.level, i, uuid), fault != AfterCommit)
  }

  predicate Consumes(body: Event) {
    body.PaymentCompleted? || body.PaymentRefunded?
  }

  function Handle(db: Db, m: Message, uuid: EventId, fault: Fault): Reply<Db>
    requires Consumes(m.body)
  {
    match m.body
    case PaymentCompleted(order, _, _) => OnPaymentCompleted(db, m.id, order, uuid, fault)
    case PaymentRefunded(order, _, _) => OnPaymentRefunded(db, order, uuid, fault)
  }

  function Receive(node: Node<Db>, m: Message, uuid: EventId, redis: Redis, fault: Fault): Node<Db> {
    if Consumes(m.body) then Guard(node, m.id, redis, Handle(node.db, m, uuid, fault)) else node
  }

  // ------------------------------------------------ what the operations mean

  /** No unit can be taken, and which reason is given. */
  predicate Refuses(product: Product, reason: StockFailure) {
    if product.Missing? then reason.ProductNotFound? else product.level.available < 1 && reason.InsufficientStock?
  }

  /**
   The reservation, whole: one unit moves, one row and one event come with it, or only a failure event with
   the reason that fits, or nothing at all. Only a reservation, old or new, counts as success.
   */
  lemma ReserveMeans(db: Db, id: EventId, order: nat, uuid: EventId, fault: Fault)
    ensures var r, key := OnPaymentCompleted(db, id, order, uuid, fault), Key(order, id);
      var done := exists i :: 0 <= i < |db.reservations| && db.reservations[i].key == key;
      var asked := !done && fault !in {AtLookup, AtBegin, AtRead};
      var commits := fault != AtOutbox && fault != AtCommit;
      var takes := asked && db.product.Found? && db.product.level.available >= 1 && fault != AtWrite && commits;
      && (takes ==>
            && r.db.product == Found(Level(db.product.level.available - 1, db.product.level.reserved + 1,
                                           db.product.level.version + 1))
            && r.db.reservations == db.reservations + [Reservation(order, 1, Reserved, key)]
            && r.db.outbox == db.outbox[uuid := StockReserved(order, |db.reservations|, 1)])
      && (!takes ==> r.db.product == db.product && r.db.reservations == db.reservations)
      && (forall reason :: asked && Refuses(db.product, reason) && commits ==>
            r.db.outbox == db.outbox[uuid := StockReservationFailed(order, reason)])
      && (!takes && !(asked && commits && exists reason :: Refuses(db.product, reason)) ==> r.db == db)
      && (r.ok <==> (done && fault != AtLookup) || (takes && fault != AfterCommit))
  {
    assert Refuses(Missing, ProductNotFound);
    if db.product.Found? && db.product.level.available < 1 {
      assert Refuses(db.product, InsufficientStock);
    }
  }

  /** The first reservation of the order that is still RESERVED. */
  predicate FirstReserved(rows: seq<Reservation>, order: nat, i: nat) {
    && i < |rows| && rows[i].order == order && rows[i].status == Reserved
    && forall j :: 0 <= j < i ==> !(rows[j].order == order && rows[j].status == Reserved)
  }

  /** The compensation, whole: the reservation's units go back, its row is cancelled and announced, or nothing. */
  lemma RestoreMeans(db: Db, order: nat, uuid: EventId, fault: Fault, i: nat)
    requires FirstReserved(db.reservations, order, i)
    ensures var r, row := OnPaymentRefunded(db, order, uuid, fault), db.reservations[i];
      var gives := db.product.Found? && fault !in {AtLookup, AtBegin, AtRead, AtWrite, AtOutbox, AtCommit};
      && (gives ==>
            && r.db.product == Found(Level(db.product.level.available + row.quantity,
                                           db.product.level.reserved - row.quantity, db.product.level.version + 1))
            && r.db.reservations == db.reservations[i := Reservation(order, row.quantity, Cancelled, row.key)]
            && r.db.outbox == db.outbox[uuid := StockRestored(order, i, row.quantity)])
      && (!gives ==> r.db == db)
      && (r.ok <==> gives && fault != AfterCommit)
  {
  }

  lemma NothingToRestore(db: Db, order: nat, uuid: EventId, fault: Fault)
    requires forall i :: 0 <= i < |db.reservations| ==>
               !(db.reservations[i].order == order && db.reservations[i].status == Reserved)
    ensures OnPaymentRefunded(db, order, uuid, fault) == Reply(db, fault != AtLookup)
  {
  }

  /** What reaches which handler: a remembered event and an unknown topic reach none. */
  lemma ReceiveMeans(node: Node<Db>, m: Message, uuid: EventId, redis: Redis, fault: Fault)
    ensures var node', drops := Receive(node, m, uuid, redis, fault), m.id in node.done && !redis.checkFails;
      match m.body
      case PaymentCompleted(order, _, _) =>
        drops || node'.db == OnPaymentCompleted(node.db, m.id, order, uuid, fault).db
      case PaymentRefunded(order, _, _) =>
        drops || node'.db == OnPaymentRefunded(node.db, order, uuid, fault).db
      case _ => node' == node
    ensures m.id in node.done && !redis.checkFails ==> Receive(node, m, uuid, redis, fault) == node
  {
  }

  /** Handled without a fault and with the store up, a reservation is remembered, a refusal is not. */
  lemma ReserveRemembered(node: Node<Db>, m: Message, uuid: EventId, redis: Redis)
    requires m.body.PaymentCompleted? && !redis.reserveFails
    ensures m.id in Receive(node, m, uuid, redis, NoFault).done <==>
            || m.id in node.done || HasKey(node.db.reservations, Key(m.body.order, m.id))
            || (node.db.product.Found? && node.db.product.level.available >= 1)
  {
  }

  /** ... and a refund is remembered, unless there is something to restore and no product to restore it to. */
  lemma RestoreRemembered(node: Node<Db>, m: Message, uuid: EventId, redis: Redis)
    requires m.body.PaymentRefunded? && !redis.reserveFails
    ensures m.id in Receive(node, m, uuid, redis, NoFault).done <==>
            || m.id in node.done || node.db.product.Found?
            || forall i :: 0 <= i < |node.db.reservations| ==>
                 !(node.db.reservations[i].order == m.body.order && node.db.reservations[i].status == Reserved)
  {
  }

  /** The domain object a transaction loads, changes and writes back. */
  class Inventory {
    var available: int
    var reserved: int
    var version: int

    constructor (level: Level)
      ensures Value() == level
    {
      available := level.available;
      reserved := level.reserved;
      version := level.version;
    }

    function Value(): Level
      reads this
    {
      Level(available, reserved, version)
    }

    predicate CanReserve(quantity: int)
      reads this
    {
      available >= quantity
    }

    method Reserve(quantity: int)
      modifies this
      ensures Value() == old(Value()).Take(quantity)
      ensures available == old(available) - quantity && version == old(version) + 1
      ensures available + reserved == old(available + reserved)
    {
      available := available - quantity;
      reserved := reserved + quantity;
      version := version + 1;
    }

    method Restore(quantity: int)
      modifies this
      ensures Value() == old(Value()).Give(quantity)
      ensures available == old(available) + quantity && version == old(version) + 1
      ensures available + reserved == old(available + reserved)
    {
      available := available + quantity;
      reserved := reserved - quantity;
      version := version + 1;
    }
  }

  /** An open transaction: the database as it will be if the transaction commits. */
  class Tx {
    var db: Db

    constructor (db: Db)
      ensures this.db == db
    {
      this.db := db;
    }

    /** The versioned compare-and-set on the product row. */
    method UpdateWithOptimisticLock(level: Level, oldVersion: int) returns (updated: bool)
      modifies this
      ensures updated <==> old(db).product.Found? && old(db).product.level.version == oldVersion
      ensures db == if updated then old(db).(product := Found(level)) else old(db)
    {
      updated := db.product.Found? && db.product.level.version == oldVersion;
      if updated {
        db := db.(product := Found(level));
      }
    }

    method InsertEvent(uuid: EventId, body: Event)
      modifies this
      ensures db == old(db).(outbox := old(db).outbox[uuid := body])
    {
      db := db.(outbox := db.outbox[uuid := body]);
    }
  }

  class InventoryService {
    var db: Db

    constructor (product: Product)
      ensures db == Db(product, [], map[])
    {
      db := Db(product, [], map[]);
    }

    method PublishStockReservationFailed(tx: Tx, order: nat, reason: StockFailure, uuid: EventId, fault: Fault)
      returns (ok: bool)
      requires tx.db == db
      modifies this, tx
      ensures Reply(db, ok) == PublishFailed(old(db), order, reason, uuid, fault)
      ensures !ok && db.product == old(db).product && db.reservations == old(db).reservations
      ensures db.outbox == if fault == AtOutbox || fault == AtCommit then old(db).outbox
                           else old(db).outbox[uuid := StockReservationFailed(order, reason)]
    {
      if fault == AtOutbox {
        return false;
      }
      tx.InsertEvent(uuid, StockReservationFailed(order, reason));
      if fault == AtCommit {
        return false;
      }
      db := tx.db;
      return false;
    }

    method HandlePaymentCompleted(id: EventId, order: nat, uuid: EventId, fault: Fault) returns (ok: bool)
      modifies this
      ensures Reply(db, ok) == OnPaymentCompleted(old(db), id, order, uuid, fault)
    {
      var key := Key(order, id);
      if fault == AtLookup {
        return false;
      }
      if HasKey(db.reservations, key) {
        return true;
      }
      if fault == AtBegin || fault == AtRead {
        return false;
      }
      var tx := new Tx(db);
      if tx.db.product.Missing? {
        ok := PublishStockReservationFailed(tx, order, ProductNotFound, uuid, fault);
        return;
      }
      var inventory := new Inventory(tx.db.product.level);
      if !inventory.CanReserve(UNIT) {
        ok := PublishStockReservationFailed(tx, order, InsufficientStock, uuid, fault);
        return;
      }
      var oldVersion := inventory.version;
      inventory.Reserve(UNIT);
      if fault == AtWrite {
        return false;
      }
      var updated := tx.UpdateWithOptimisticLock(inventory.Value(), oldVersion);
      // Nobody moved the row since the read, so the "version conflict" branch is dead here;
      // module Interleaving models it and shows when it is not.
      assert updated;
      var reservation := |tx.db.reservations|;
      tx.db := tx.db.(reservations := tx.db.reservations + [Reservation(order, UNIT, Reserved, key)]);
      if fault == AtOutbox {
        return false;
      }
      tx.InsertEvent(uuid, StockReserved(order, reservation, UNIT));
      if fault == AtCommit {
        return false;
      }
      db := tx.db;
      return fault != AfterCommit;
    }

    method HandlePaymentRefunded(order: nat, uuid: EventId, fault: Fault) returns (ok: bool)
      modifies this
      ensures Reply(db, ok) == OnPaymentRefunded(old(db), order, uuid, fault)
    {
      if fault == AtLookup {
        return false;
      }
      var i := FindReserved(db.reservations, order);
      if i < 0 {
        return true;
      }
      if fault == AtBegin || fault == AtRead {
        return false;
      }
      var tx := new Tx(db);
      if tx.db.product.Missing? {
        return false;
      }
      var inventory := new Inventory(tx.db.product.level);
      var oldVersion := inventory.version;
      var quantity := db.reservations[i].quantity;
      inventory.Restore(quantity);
      if fault == AtWrite {
        return false;
      }
      var updated := tx.UpdateWithOptimisticLock(inventory.Value(), oldVersion);
      assert updated;
      tx.db := tx.db.(reservations := tx.db.reservations[i := tx.db.reservations[i].(status := Cancelled)]);
      if fault == AtOutbox {
        return false;
      }
      tx.InsertEvent(uuid, StockRestored(order, i, quantity));
      if fault == AtCommit {
        return false;
      }
      db := tx.db;
      return fault != AfterCommit;
    }
  }

  /** The consumer closure of the inventory service. */
  class InventoryConsumer {
    const service: InventoryService
    const store: Store

    constructor (service: InventoryService, store: Store)
      ensures this.service == service && this.store == store
    {
      this.service := service;
      this.store := store;
    }

    function Value(): Node<Db>
      reads service, store
    {
      Node(service.db, store.keys)
    }

    method HandleMessage(m: Message, uuid: EventId, redis: Redis, fault: Fault) returns (ok: bool)
      modifies service, store
      ensures Value() == Receive(old(Value()), m, uuid, redis, fault)
      ensures ok <==> !Consumes(m.body) || Skips(old(Value()), m.id, redis) ||
                      Handle(old(service.db), m, uuid, fault).ok
    {
      match m.body {
        case PaymentCompleted(order, _, _) =>
          var processed := store.IsProcessed(m.id, redis.checkFails);
          if processed {
            return true;
          }
          ok := service.HandlePaymentCompleted(m.id, order, uuid, fault);
        case PaymentRefunded(order, _, _) =>
          var processed := store.IsProcessed(m.id, redis.checkFails);
          if processed {
            return true;
          }
          ok := service.HandlePaymentRefunded(order, uuid, fault);
        case _ =>
          return true;
      }
      if !ok {
        return false;
      }
      var _ := store.Reserve(m.id, redis.reserveFails);
    }
  }
}

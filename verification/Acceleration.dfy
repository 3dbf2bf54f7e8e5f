/** The idempotency store only saves work: without it the services reach the same rows and events. */
module Acceleration {
  import opened Events
  import opened Idempotency
  import opened Saga
  import opened Guarantees
  import O = Orders
  import P = Payments
  import S = Stock
  import D = Deliveries

  /** The same step with the store of the payment, inventory or delivery service never consulted. */
  function Bare(step: Step): Step {
    match step
    case ToPayment(at, redis, w) => ToPayment(at, redis.(checkFails := true), w)
    case ToInventory(at, redis, fault) => ToInventory(at, redis.(checkFails := true), fault)
    case ToDelivery(at, redis, fault) => ToDelivery(at, redis.(checkFails := true), fault)
    case _ => step
  }

  function BareAll(steps: seq<Step>): (bare: seq<Step>)
    ensures |bare| == |steps|
  {
    seq(|steps|, i requires 0 <= i < |steps| => Bare(steps[i]))
  }

  /** Everything but the key stores of those three services agrees. */
  ghost predicate SameRows(s: System, t: System) {
    && t.orders == s.orders && t.payment.db == s.payment.db
    && t.inventory.db == s.inventory.db && t.delivery.db == s.delivery.db
    && t.log == s.log && t.inflight == s.inflight && t.attempts == s.attempts && t.next == s.next
  }

  ghost predicate Issuable(done: set<EventId>, next: EventId) {
    forall e :: e in done ==> e < next
  }

  ghost predicate HasRefund(rows: seq<P.Row>, order: nat) {
    exists i :: 0 <= i < |rows| && rows[i].order == order && rows[i].status.Refunded?
  }

  /** A key in a store means that the handler has nothing left to do for that event. */
  ghost predicate PaymentSound(created: Outbox, stock: Outbox, node: Node<P.Db>, next: EventId) {
    && Issuable(node.done, next)
    && (forall e :: e in node.done && e in created ==> P.HasKey(node.db.rows, Key(created[e].order, e)))
    && (forall e :: e in node.done && e in stock && stock[e].StockReservationFailed? ==>
          HasRefund(node.db.rows, stock[e].order))
  }

  ghost predicate InventorySound(paid: Outbox, node: Node<S.Db>, next: EventId) {
    && Issuable(node.done, next)
    && (forall e :: e in node.done && e in paid && paid[e].PaymentCompleted? ==>
          S.HasKey(node.db.reservations, Key(paid[e].order, e)))
  }

  ghost predicate DeliverySound(stock: Outbox, node: Node<D.Db>, next: EventId) {
    && Issuable(node.done, next)
    && (forall e :: e in node.done && e in stock && stock[e].StockReserved? ==>
          D.HasKey(node.db.rows, Key(stock[e].order, e)))
  }

  ghost predicate StoresSound(s: System) {
    && s.orders.db.outbox.Keys !! s.inventory.db.outbox.Keys
    && PaymentSound(s.orders.db.outbox, s.inventory.db.outbox, s.payment, s.next)
    && InventorySound(s.payment.db.outbox, s.inventory, s.next)
    && DeliverySound(s.inventory.db.outbox, s.delivery, s.next)
  }

  // ------------------------------------------------ a handled event stays handled

  lemma PaymentRowsKeep(p: P.Db, m: Message, uuid: EventId, w: P.World, key: Key)
    requires P.Consumes(m.body) && P.HasKey(p.rows, key)
    ensures P.HasKey(P.Handle(p, m, uuid, w).db.rows, key)
  {
    var i :| 0 <= i < |p.rows| && p.rows[i].key == key;
    assert P.Handle(p, m, uuid, w).db.rows[i].key == key;
  }

  lemma RefundsKeep(p: P.Db, m: Message, uuid: EventId, w: P.World, order: nat)
    requires P.Consumes(m.body) && HasRefund(p.rows, order)
    ensures HasRefund(P.Handle(p, m, uuid, w).db.rows, order)
  {
    var i :| 0 <= i < |p.rows| && p.rows[i].order == order && p.rows[i].status.Refunded?;
    var rows := P.Handle(p, m, uuid, w).db.rows;
    assert rows[i].order == order && rows[i].status.Refunded?;
  }

  /** A handler that returned without error leaves its event settled. */
  lemma HandledIsSound(p: P.Db, m: Message, uuid: EventId, w: P.World)
    requires P.Consumes(m.body) && P.Handle(p, m, uuid, w).ok
    ensures var rows := P.Handle(p, m, uuid, w).db.rows;
      && (m.body.OrderCreated? ==> P.HasKey(rows, Key(m.body.order, m.id)))
      && (m.body.StockReservationFailed? ==> HasRefund(rows, m.body.order))
  {
    var rows := P.Handle(p, m, uuid, w).db.rows;
    if m.body.OrderCreated? {
      if !P.HasKey(p.rows, Key(m.body.order, m.id)) {
        assert rows[|p.rows|].key == Key(m.body.order, m.id);
      }
    } else {
      var i := P.FindByOrder(p.rows, m.body.order);
      assert rows[i].order == m.body.order && rows[i].status.Refunded?;
    }
  }

  lemma PaymentSoundReceive(created: Outbox, stock: Outbox, node: Node<P.Db>, m: Message, next: EventId,
                              redis: Redis, w: P.World)
    requires PaymentSound(created, stock, node, next) && created.Keys !! stock.Keys && m.id < next
    requires m.body.OrderCreated? ==> m.id in created && created[m.id] == m.body
    requires m.body.StockReservationFailed? ==> m.id in stock && stock[m.id] == m.body
    ensures PaymentSound(created, stock, P.Receive(node, m, next, redis, w), next + 1)
  {
    var node' := P.Receive(node, m, next, redis, w);
    if node' != node {
      if P.Handle(node.db, m, next, w).ok {
        HandledIsSound(node.db, m, next, w);
      }
      forall e | e in node'.done && e in created
        ensures P.HasKey(node'.db.rows, Key(created[e].order, e))
      {
        if e in node.done {
          PaymentRowsKeep(node.db, m, next, w, Key(created[e].order, e));
        }
      }
      forall e | e in node'.done && e in stock && stock[e].StockReservationFailed?
        ensures HasRefund(node'.db.rows, stock[e].order)
      {
        if e in node.done {
          RefundsKeep(node.db, m, next, w, stock[e].order);
        }
      }
    }
  }

  lemma ReservationsKeep(st: S.Db, id: EventId, order: nat, uuid: EventId, fault: Fault, key: Key)
    requires S.HasKey(st.reservations, key)
    ensures S.HasKey(S.OnPaymentCompleted(st, id, order, uuid, fault).db.reservations, key)
  {
    var i :| 0 <= i < |st.reservations| && st.reservations[i].key == key;
    assert S.OnPaymentCompleted(st, id, order, uuid, fault).db.reservations[i].key == key;
  }

  lemma ReservedIsSound(st: S.Db, id: EventId, order: nat, uuid: EventId, fault: Fault)
    requires S.OnPaymentCompleted(st, id, order, uuid, fault).ok
    ensures S.HasKey(S.OnPaymentCompleted(st, id, order, uuid, fault).db.reservations, Key(order, id))
  {
    var rows := S.OnPaymentCompleted(st, id, order, uuid, fault).db.reservations;
    if !S.HasKey(st.reservations, Key(order, id)) {
      assert rows[|st.reservations|].key == Key(order, id);
    }
  }

  lemma InventorySoundReceive(paid: Outbox, node: Node<S.Db>, m: Message, next: EventId, redis: Redis, fault: Fault)
    requires InventorySound(paid, node, next) && m.id < next
    requires S.Consumes(m.body) ==> m.id in paid && paid[m.id] == m.body
    requires m.body.PaymentRefunded? ==> S.FindReserved(node.db.reservations, m.body.order) < 0
    ensures InventorySound(paid, S.Receive(node, m, next, redis, fault), next + 1)
  {
    var node' := S.Receive(node, m, next, redis, fault);
    if m.body.PaymentCompleted? && node' != node {
      if S.Handle(node.db, m, next, fault).ok {
        ReservedIsSound(node.db, m.id, m.body.order, next, fault);
      }
      forall e | e in node'.done && e in paid && paid[e].PaymentCompleted?
        ensures S.HasKey(node'.db.reservations, Key(paid[e].order, e))
      {
        if e in node.done {
          ReservationsKeep(node.db, m.id, m.body.order, next, fault, Key(paid[e].order, e));
        }
      }
    }
  }

  lemma DeliveriesKeep(d: D.Db, id: EventId, order: nat, uuid: EventId, fault: Fault, key: Key)
    requires D.HasKey(d.rows, key)
    ensures D.HasKey(D.OnStockReserved(d, id, order, uuid, fault).db.rows, key)
  {
    var i :| 0 <= i < |d.rows| && d.rows[i].key == key;
    assert D.OnStockReserved(d, id, order, uuid, fault).db.rows[i].key == key;
  }

  lemma DeliveredIsSound(d: D.Db, id: EventId, order: nat, uuid: EventId, fault: Fault)
    requires D.OnStockReserved(d, id, order, uuid, fault).ok
    ensures D.HasKey(D.OnStockReserved(d, id, order, uuid, fault).db.rows, Key(order, id))
  {
    var rows := D.OnStockReserved(d, id, order, uuid, fault).db.rows;
    if !D.HasKey(d.rows, Key(order, id)) {
      assert rows[|d.rows|].key == Key(order, id);
    }
  }

  lemma DeliverySoundReceive(stock: Outbox, node: Node<D.Db>, m: Message, next: EventId, redis: Redis, fault: Fault)
    requires DeliverySound(stock, node, next) && m.id < next
    requires D.Consumes(m.body) ==> m.id in stock && stock[m.id] == m.body
    ensures DeliverySound(stock, D.Receive(node, m, next, redis, fault), next + 1)
  {
    var node' := D.Receive(node, m, next, redis, fault);
    if node' != node {
      if D.Handle(node.db, m, next, fault).ok {
        DeliveredIsSound(node.db, m.id, m.body.order, next, fault);
      }
      forall e | e in node'.done && e in stock && stock[e].StockReserved?
        ensures D.HasKey(node'.db.rows, Key(stock[e].order, e))
      {
        if e in node.done {
          DeliveriesKeep(node.db, m.id, m.body.order, next, fault, Key(stock[e].order, e));
        }
      }
    }
  }

  /** At most one event was added, under the fresh identifier. */
  ghost predicate AddsAtMost(outbox: Outbox, outbox': Outbox, next: EventId) {
    forall e :: e in outbox' ==> e == next || (e in outbox && outbox'[e] == outbox[e])
  }

  lemma SoundGrows(s: System, s': System)
    requires StoresSound(s) && s'.next == s.next + 1
    requires AddsAtMost(s.orders.db.outbox, s'.orders.db.outbox, s.next)
    requires AddsAtMost(s.payment.db.outbox, s'.payment.db.outbox, s.next)
    requires AddsAtMost(s.inventory.db.outbox, s'.inventory.db.outbox, s.next)
    requires s.next in s'.orders.db.outbox ==> s.next !in s'.inventory.db.outbox
    ensures s'.orders.db.outbox.Keys !! s'.inventory.db.outbox.Keys
    ensures PaymentSound(s'.orders.db.outbox, s'.inventory.db.outbox, s.payment, s'.next)
    ensures InventorySound(s'.payment.db.outbox, s.inventory, s'.next)
    ensures DeliverySound(s'.inventory.db.outbox, s.delivery, s'.next)
  {
  }

  lemma IssuedBelow(start: S.Product, s: System, m: Message)
    requires Inv(start, s) && Issued(s, m)
    ensures m.id < s.next && s.next !in s.orders.db.outbox
  {
  }

  lemma ReceivesAddOne(s: System, m: Message, redis: Redis, w: P.World)
    ensures AddsAtMost(s.payment.db.outbox, P.Receive(s.payment, m, s.next, redis, w).db.outbox, s.next)
    ensures AddsAtMost(s.inventory.db.outbox, S.Receive(s.inventory, m, s.next, redis, w.fault).db.outbox, s.next)
  {
  }

  lemma PaymentSoundStep(s: System, m: Message, redis: Redis, w: P.World)
    requires StoresSound(s) && Issued(s, m) && m.id < s.next && s.next !in s.orders.db.outbox
    ensures StoresSound(DoPayment(s, m, redis, w))
  {
    PaymentSoundReceive(s.orders.db.outbox, s.inventory.db.outbox, s.payment, m, s.next, redis, w);
    ReceivesAddOne(s, m, redis, w);
    SoundGrows(s, DoPayment(s, m, redis, w));
  }

  lemma InventorySoundStep(s: System, m: Message, redis: Redis, fault: Fault)
    requires StoresSound(s) && Issued(s, m) && m.id < s.next && s.next !in s.orders.db.outbox
    requires m.body.PaymentRefunded? ==> S.FindReserved(s.inventory.db.reservations, m.body.order) < 0
    ensures StoresSound(DoInventory(s, m, redis, fault))
  {
    InventorySoundReceive(s.payment.db.outbox, s.inventory, m, s.next, redis, fault);
    ReceivesAddOne(s, m, redis, P.World(true, false, fault));
    SoundGrows(s, DoInventory(s, m, redis, fault));
  }

  lemma DeliverySoundStep(s: System, m: Message, redis: Redis, fault: Fault)
    requires StoresSound(s) && Issued(s, m) && m.id < s.next && s.next !in s.orders.db.outbox
    ensures StoresSound(DoDelivery(s, m, redis, fault))
  {
    DeliverySoundReceive(s.inventory.db.outbox, s.delivery, m, s.next, redis, fault);
    SoundGrows(s, DoDelivery(s, m, redis, fault));
  }

  lemma CreateSoundStep(s: System, cmd: O.Command, lookupFails: bool, fault: Fault)
    requires StoresSound(s) && s.next !in s.inventory.db.outbox
    ensures StoresSound(DoCreate(s, cmd, lookupFails, fault))
  {
    SoundGrows(s, DoCreate(s, cmd, lookupFails, fault));
  }

  lemma OtherSoundStep(s: System, step: Step)
    requires StoresSound(s) && !step.Create? && !step.ToPayment? && !step.ToInventory? && !step.ToDelivery?
    ensures StoresSound(Apply(s, step))
  {
  }

  lemma ToInventorySound(start: S.Product, s: System, m: Message, redis: Redis, fault: Fault)
    requires Inv(start, s) && StoresSound(s) && Issued(s, m)
    ensures StoresSound(DoInventory(s, m, redis, fault))
  {
    IssuedBelow(start, s, m);
    if m.body.PaymentRefunded? {
      RefundedOrderHoldsNothing(start, s, m);
    }
    InventorySoundStep(s, m, redis, fault);
  }

  lemma SoundStep(start: S.Product, s: System, step: Step)
    requires Inv(start, s) && StoresSound(s)
    ensures StoresSound(Apply(s, step))
  {
    match step {
      case Create(cmd, lookupFails, fault) => CreateSoundStep(s, cmd, lookupFails, fault);
      case ToPayment(at, redis, w) =>
        if at < |s.log| {
          IssuedBelow(start, s, s.log[at]);
          PaymentSoundStep(s, s.log[at], redis, w);
        }
      case ToInventory(at, redis, fault) =>
        if at < |s.log| {
          ToInventorySound(start, s, s.log[at], redis, fault);
        }
      case ToDelivery(at, redis, fault) =>
        if at < |s.log| {
          IssuedBelow(start, s, s.log[at]);
          DeliverySoundStep(s, s.log[at], redis, fault);
        }
      case _ => OtherSoundStep(s, step);
    }
  }

  // ------------------------------------------------ replaying a settled event changes nothing

  /** Exactly when re-running the payment handler on an event with a payment leaves the database alone. */
  lemma ReplayIsNoOpIff(p: P.Db, id: EventId, order: nat, amount: int, uuid: EventId, w: P.World)
    requires P.HasKey(p.rows, Key(order, id)) && uuid !in p.outbox
    ensures P.OnOrderCreated(p, id, order, amount, uuid, w).db == p <==>
            !w.lookupFails || w.fault == AtBegin || (!w.approve && !Commits(w.fault))
  {
    var p' := P.OnOrderCreated(p, id, order, amount, uuid, w).db;
    assert |p.ledger + [P.Charge(order, amount)]| != |p.ledger|;
    assert uuid in p.outbox[uuid := PaymentFailed(order)];
  }

  /** A replay that does change the database: the lookup fails, and the handler gets as far as the gateway's answer. */
  predicate Recharges(body: Event, w: P.World) {
    body.OrderCreated? && w.lookupFails && w.fault != AtBegin && (w.approve || Commits(w.fault))
  }

  lemma RefundReplay(node: Node<P.Db>, order: nat, uuid: EventId, fault: Fault)
    requires forall i, j :: 0 <= i < j < |node.db.rows| ==> node.db.rows[i].order != node.db.rows[j].order
    requires HasRefund(node.db.rows, order)
    ensures P.OnStockReservationFailed(node.db, order, uuid, fault).db == node.db
  {
    var rows := node.db.rows;
    var i :| 0 <= i < |rows| && rows[i].order == order && rows[i].status.Refunded?;
    assert P.FindByOrder(rows, order) == i;
  }

  lemma PaymentReplayIff(start: S.Product, s: System, m: Message, w: P.World)
    requires Inv(start, s) && StoresSound(s) && Issued(s, m) && m.id in s.payment.done && P.Consumes(m.body)
    ensures P.Handle(s.payment.db, m, s.next, w).db == s.payment.db <==> !Recharges(m.body, w)
  {
    match m.body {
      case OrderCreated(order, amount, _) => ReplayIsNoOpIff(s.payment.db, m.id, order, amount, s.next, w);
      case StockReservationFailed(order, _) =>
        RefundReplay(s.payment, order, s.next, w.fault);
    }
  }

  lemma ReservedReplay(paid: Outbox, node: Node<S.Db>, m: Message, next: EventId, fault: Fault)
    requires InventorySound(paid, node, next) && m.id in node.done
    requires m.body.PaymentCompleted? && m.id in paid && paid[m.id] == m.body
    ensures S.OnPaymentCompleted(node.db, m.id, m.body.order, next, fault).db == node.db
  {
    assert S.HasKey(node.db.reservations, Key(m.body.order, m.id));
  }

  lemma InventoryReplay(start: S.Product, s: System, m: Message, fault: Fault)
    requires Inv(start, s) && StoresSound(s) && Issued(s, m) && m.id in s.inventory.done && S.Consumes(m.body)
    ensures S.Handle(s.inventory.db, m, s.next, fault).db == s.inventory.db
  {
    IssuedToInventory(start, s, m);
    if m.body.PaymentCompleted? {
      ReservedReplay(s.payment.db.outbox, s.inventory, m, s.next, fault);
    }
  }

  lemma DeliveryReplay(start: S.Product, s: System, m: Message, fault: Fault)
    requires Inv(start, s) && StoresSound(s) && Issued(s, m) && m.id in s.delivery.done && D.Consumes(m.body)
    ensures D.Handle(s.delivery.db, m, s.next, fault).db == s.delivery.db
  {
    assert D.HasKey(s.delivery.db.rows, Key(m.body.order, m.id));
  }

  lemma BarePaymentIff(s: System, t: System, m: Message, redis: Redis, w: P.World)
    requires SameRows(s, t)
    ensures SameRows(DoPayment(s, m, redis, w), DoPayment(t, m, redis.(checkFails := true), w)) <==>
            (P.Consumes(m.body) && !redis.checkFails && m.id in s.payment.done ==>
               P.Handle(s.payment.db, m, s.next, w).db == s.payment.db)
  {
  }

  lemma BareInventory(s: System, t: System, m: Message, redis: Redis, fault: Fault)
    requires SameRows(s, t)
    requires S.Consumes(m.body) && m.id in s.inventory.done ==>
      S.Handle(s.inventory.db, m, s.next, fault).db == s.inventory.db
    ensures SameRows(DoInventory(s, m, redis, fault), DoInventory(t, m, redis.(checkFails := true), fault))
  {
  }

  lemma BareDelivery(s: System, t: System, m: Message, redis: Redis, fault: Fault)
    requires SameRows(s, t)
    requires D.Consumes(m.body) && m.id in s.delivery.done ==>
      D.Handle(s.delivery.db, m, s.next, fault).db == s.delivery.db
    ensures SameRows(DoDelivery(s, m, redis, fault), DoDelivery(t, m, redis.(checkFails := true), fault))
  {
  }

  lemma BareOther(s: System, t: System, step: Step)
    requires SameRows(s, t) && !step.ToPayment? && !step.ToInventory? && !step.ToDelivery?
    ensures SameRows(Apply(s, step), Apply(t, step))
  {
  }

  /** The store keeps the handler from running, although running it again would change something. */
  predicate Diverges(s: System, step: Step) {
    && step.ToPayment? && step.at < |s.log|
    && !step.redis.checkFails && s.log[step.at].id in s.payment.done
    && Recharges(s.log[step.at].body, step.world)
  }

  lemma PaymentStepIff(start: S.Product, s: System, t: System, m: Message, redis: Redis, w: P.World)
    requires Inv(start, s) && StoresSound(s) && SameRows(s, t) && Issued(s, m)
    ensures SameRows(DoPayment(s, m, redis, w), DoPayment(t, m, redis.(checkFails := true), w)) <==>
            !(!redis.checkFails && m.id in s.payment.done && Recharges(m.body, w))
  {
    BarePaymentIff(s, t, m, redis, w);
    if P.Consumes(m.body) && m.id in s.payment.done {
      PaymentReplayIff(start, s, m, w);
    }
  }

  lemma InventoryStepSame(start: S.Product, s: System, t: System, m: Message, redis: Redis, fault: Fault)
    requires Inv(start, s) && StoresSound(s) && SameRows(s, t) && Issued(s, m)
    ensures SameRows(DoInventory(s, m, redis, fault), DoInventory(t, m, redis.(checkFails := true), fault))
  {
    if S.Consumes(m.body) && m.id in s.inventory.done {
      InventoryReplay(start, s, m, fault);
    }
    BareInventory(s, t, m, redis, fault);
  }

  lemma DeliveryStepSame(start: S.Product, s: System, t: System, m: Message, redis: Redis, fault: Fault)
    requires Inv(start, s) && StoresSound(s) && SameRows(s, t) && Issued(s, m)
    ensures SameRows(DoDelivery(s, m, redis, fault), DoDelivery(t, m, redis.(checkFails := true), fault))
  {
    if D.Consumes(m.body) && m.id in s.delivery.done {
      DeliveryReplay(start, s, m, fault);
    }
    BareDelivery(s, t, m, redis, fault);
  }

  /** From equal rows, the stored and the bare step reach equal rows exactly if the step does not diverge. */
  lemma BareStepIff(start: S.Product, s: System, t: System, step: Step)
    requires Inv(start, s) && StoresSound(s) && SameRows(s, t)
    ensures SameRows(Apply(s, step), Apply(t, Bare(step))) <==> !Diverges(s, step)
  {
    match step {
      case ToPayment(at, redis, w) =>
        if at < |s.log| {
          LogIsIssued(start, s, at);
          PaymentStepIff(start, s, t, s.log[at], redis, w);
        }
      case ToInventory(at, redis, fault) =>
        if at < |s.log| {
          LogIsIssued(start, s, at);
          InventoryStepSame(start, s, t, s.log[at], redis, fault);
        }
      case ToDelivery(at, redis, fault) =>
        if at < |s.log| {
          LogIsIssued(start, s, at);
          DeliveryStepSame(start, s, t, s.log[at], redis, fault);
        }
      case _ => BareOther(s, t, step);
    }
  }

  // ------------------------------------------------ whole runs, with and without the store

  lemma {:induction false} SoundRun(start: S.Product, steps: seq<Step>)
    requires ValidStart(start)
    ensures StoresSound(Run(Init(start), steps))
    decreases |steps|
  {
    if steps != [] {
      var before := steps[..|steps| - 1];
      SoundRun(start, before);
      InvRun(start, before);
      SoundStep(start, Run(Init(start), before), steps[|steps| - 1]);
    }
  }

  /** The run and its bare twin agree after the first k steps. */
  ghost predicate SameAfter(start: S.Product, steps: seq<Step>, k: nat)
    requires k <= |steps|
  {
    SameRows(Run(Init(start), steps[..k]), Run(Init(start), BareAll(steps[..k])))
  }

  ghost predicate AlwaysSame(start: S.Product, steps: seq<Step>) {
    forall k :: 0 <= k <= |steps| ==> SameAfter(start, steps, k)
  }

  ghost predicate NeverDiverges(start: S.Product, steps: seq<Step>) {
    forall k :: 0 <= k < |steps| ==> !Diverges(Run(Init(start), steps[..k]), steps[k])
  }

  lemma BareNext(start: S.Product, steps: seq<Step>, k: nat)
    requires k < |steps|
    ensures Run(Init(start), steps[..k + 1]) == Apply(Run(Init(start), steps[..k]), steps[k])
    ensures Run(Init(start), BareAll(steps[..k + 1])) == Apply(Run(Init(start), BareAll(steps[..k])), Bare(steps[k]))
  {
    assert steps[..k + 1] == steps[..k] + [steps[k]];
    assert BareAll(steps[..k + 1]) == BareAll(steps[..k]) + [Bare(steps[k])];
    RunNext(Init(start), steps[..k], steps[k]);
    RunNext(Init(start), BareAll(steps[..k]), Bare(steps[k]));
  }

  lemma {:induction false} SameNext(start: S.Product, steps: seq<Step>, k: nat)
    requires ValidStart(start) && k < |steps| && SameAfter(start, steps, k)
    ensures SameAfter(start, steps, k + 1) <==> !Diverges(Run(Init(start), steps[..k]), steps[k])
  {
    InvRun(start, steps[..k]);
    SoundRun(start, steps[..k]);
    BareNext(start, steps, k);
    BareStepIff(start, Run(Init(start), steps[..k]), Run(Init(start), BareAll(steps[..k])), steps[k]);
  }

  lemma SameAtFirst(start: S.Product, steps: seq<Step>)
    ensures SameAfter(start, steps, 0)
  {
    assert steps[..0] == [] && BareAll([]) == [];
  }

  lemma {:induction false} SamePrefix(start: S.Product, steps: seq<Step>, k: nat)
    requires ValidStart(start) && k <= |steps|
    requires forall i :: 0 <= i < k ==> !Diverges(Run(Init(start), steps[..i]), steps[i])
    ensures SameAfter(start, steps, k)
  {
    if k == 0 {
      SameAtFirst(start, steps);
    } else {
      SamePrefix(start, steps, k - 1);
      SameNext(start, steps, k - 1);
    }
  }

  /**
   With the store and without it, a run has the same orders, rows, events, published messages and
   unfinished handlers all along, duplicates and expiring keys included, if and only if the store never
   shields a payment handler whose failing lookup would have let it charge or decline again.
   */
  lemma {:induction false} SameAsBareIff(start: S.Product, steps: seq<Step>)
    requires ValidStart(start)
    ensures AlwaysSame(start, steps) <==> NeverDiverges(start, steps)
  {
    if NeverDiverges(start, steps) {
      forall k | 0 <= k <= |steps|
        ensures SameAfter(start, steps, k)
      {
        SamePrefix(start, steps, k);
      }
    }
    if AlwaysSame(start, steps) {
      forall k | 0 <= k < |steps|
        ensures !Diverges(Run(Init(start), steps[..k]), steps[k])
      {
        SameNext(start, steps, k);
      }
    }
  }

  /** While payment lookups answer, the store only saves work. */
  lemma {:induction false} StoreIsOnlyAnAccelerator(start: S.Product, steps: seq<Step>)
    requires ValidStart(start) && Trusting(steps)
    ensures SameRows(Run(Init(start), steps), Run(Init(start), BareAll(steps)))
  {
    SamePrefix(start, steps, |steps|);
    assert steps[..|steps|] == steps;
  }

  /** One order, charged; then its order.created again, with a lookup that fails. */
  function ChargedAgain(): seq<Step> {
    var up := Redis(false, false);
    [Create(O.Command(5, 1, "k"), false, NoFault), Publish(OrderParty, 0),
     ToPayment(0, up, P.World(true, false, NoFault)), ToPayment(0, up, P.World(true, true, NoFault))]
  }

  lemma PlacedOne(start: S.Product)
    ensures var t := Apply(Init(start), ChargedAgain()[0]);
      && t.orders.db.outbox == map[0 := OrderCreated(0, 5, 1)]
      && t.payment == Init(start).payment && t.log == []
  {
  }

  lemma ChargedOne(s: System)
    requires s.payment == Init(S.Missing).payment && s.log == [Message(0, OrderCreated(0, 5, 1))]
    ensures var t := Apply(s, ChargedAgain()[2]); t.log == s.log && 0 in t.payment.done
  {
  }

  lemma ChargedOnce(start: S.Product)
    ensures var s := Run(Init(start), ChargedAgain()[..3]);
      s.log == [Message(0, OrderCreated(0, 5, 1))] && 0 in s.payment.done
  {
    var steps := ChargedAgain();
    assert steps[..0] == [];
    BareNext(start, steps, 0);
    BareNext(start, steps, 1);
    BareNext(start, steps, 2);
    PlacedOne(start);
    ChargedOne(Run(Init(start), steps[..2]));
  }

  /** Nothing in the first three steps diverges: no lookup fails there. */
  lemma SameSoFar(start: S.Product)
    requires ValidStart(start)
    ensures SameAfter(start, ChargedAgain(), 3)
  {
    var steps := ChargedAgain();
    forall i | 0 <= i < 3
      ensures !Diverges(Run(Init(start), steps[..i]), steps[i])
    {
      assert steps[i].ToPayment? ==> !steps[i].world.lookupFails;
    }
    SamePrefix(start, steps, 3);
  }

  /** There is such a run: the store prevents a second charge that the bare handler makes. */
  lemma StorePreventsASecondCharge(start: S.Product)
    requires ValidStart(start)
    ensures !SameRows(Run(Init(start), ChargedAgain()), Run(Init(start), BareAll(ChargedAgain())))
  {
    var steps := ChargedAgain();
    SameSoFar(start);
    ChargedOnce(start);
    assert Diverges(Run(Init(start), steps[..3]), steps[3]);
    SameNext(start, steps, 3);
    assert steps[..4] == steps;
  }
}

/** What the steps of the saga are made of: the handlers run whole, and the freedom of the world around them. */
module Steps {
  import opened Events
  import opened Idempotency
  import opened Saga
  import O = Orders
  import P = Payments
  import S = Stock
  import D = Deliveries
  import H = OrderHistory

  /** The handler stops before it has written anything. */
  predicate Lost(db: O.Db, m: Message, fault: Fault) {
    || fault == AtLookup
    || (fault == AtWrite && m.body.order < |db.rows| && O.Target(m.body, db.rows[m.body.order].status).Write?)
  }

  /** The second half of the newest handler: it writes, or it is lost. */
  function SecondHalf(s: System, m: Message, redis: Redis, fault: Fault): Step {
    if Lost(s.orders.db, m, fault) then OrderCrash(|s.inflight|) else OrderWrite(|s.inflight|, redis.reserveFails)
  }

  /** The handler that read last writes, or dies. */
  lemma NewestEnds(s: System, op: O.Op, reserveFails: bool)
    ensures var s', i := s.(inflight := s.inflight + [op]), |s.inflight|;
      && Apply(s', OrderWrite(i, reserveFails)) ==
         s.(orders := Node(s.orders.db.(rows := O.Finish(s.orders.db.rows, op)),
                           if reserveFails then s.orders.done else s.orders.done + {op.message.id}))
      && Apply(s', OrderCrash(i)) == s
  {
    assert Without(s.inflight + [op], |s.inflight|) == s.inflight;
  }

  lemma NothingEnds(s: System, reserveFails: bool)
    ensures Apply(s, OrderWrite(|s.inflight|, reserveFails)) == s && Apply(s, OrderCrash(|s.inflight|)) == s
  {
  }

  /** A handler that starts on an order has read its row; any other leaves no trace. */
  lemma HandlerStarts(s: System, at: nat, redis: Redis) returns (op: O.Op)
    requires at < |s.log|
    ensures var m, step, rows := s.log[at], OrderRead(at, redis.checkFails), s.orders.db.rows;
      if Starts(s, step) && m.body.order < |rows| then
        && op == O.Op(m, rows[m.body.order].status, rows[m.body.order].version)
        && Apply(s, step) == s.(inflight := s.inflight + [op])
      else Apply(s, step) == s
  {
    var m, rows := s.log[at], s.orders.db.rows;
    op := if m.body.order < |rows| then O.Op(m, rows[m.body.order].status, rows[m.body.order].version)
    else O.Op(m, O.Pending, 0);
  }

  /**
   The order service's consumer, run whole on a published message and cut anywhere, is two steps of the
   saga: the read, and the write or the crash. It touches nothing but the order service.
   */
  lemma HandlingIsTwoSteps(s: System, at: nat, redis: Redis, fault: Fault)
    requires at < |s.log|
    ensures Apply(Apply(s, OrderRead(at, redis.checkFails)), SecondHalf(s, s.log[at], redis, fault)) ==
            s.(orders := O.Receive(s.orders, s.log[at], redis, fault))
  {
    var m := s.log[at];
    var op := HandlerStarts(s, at, redis);
    if Starts(s, OrderRead(at, redis.checkFails)) && m.body.order < |s.orders.db.rows| {
      NewestEnds(s, op, redis.reserveFails);
    } else {
      NothingEnds(s, redis.reserveFails);
    }
  }

  /** Orders and unfinished handlers, as the order service's own history sees them. */
  function HistoryOf(s: System): H.State {
    H.State(s.orders.db.rows, s.inflight)
  }

  /** The handler for this message starts: the topic is known, and the store does not drop it. */
  predicate Starts(s: System, step: Step) {
    && step.OrderRead? && step.at < |s.log| && O.Consumes(s.log[step.at].body)
    && (step.checkFails || s.log[step.at].id !in s.orders.done)
  }

  /** In every step but a creation the order service's history takes the matching step, or none. */
  lemma SagaFollowsHistory(s: System, step: Step)
    requires !step.Create?
    ensures var h, h' := HistoryOf(s), HistoryOf(Apply(s, step));
      && (Starts(s, step) ==> h' == H.Apply(h, H.Read(s.log[step.at])))
      && (step.OrderWrite? ==> h' == H.Apply(h, H.Write(step.op)))
      && (step.OrderCrash? ==> h' == H.Apply(h, H.Crash(step.op)))
      && (!Starts(s, step) && !step.OrderWrite? && !step.OrderCrash? ==> h' == h)
  {
  }

  /** No step works on two services at once; only publishing grows the log, only handling moves the attempts. */
  lemma OneServiceAtATime(s: System, step: Step)
    ensures var s' := Apply(s, step);
      && (s'.orders != s.orders ==> step.Create? || step.OrderWrite? || step == Expire(OrderParty, step.id))
      && (s'.payment != s.payment ==> step.ToPayment? || step == Expire(PaymentParty, step.id))
      && (s'.inventory != s.inventory ==> step.ToInventory? || step == Expire(InventoryParty, step.id))
      && (s'.delivery != s.delivery ==> step.ToDelivery? || step == Expire(DeliveryParty, step.id))
      && (s'.log != s.log ==> step.Publish?)
      && (s'.inflight != s.inflight ==> step.OrderRead? || step.OrderWrite? || step.OrderCrash?)
      && (s'.attempts != s.attempts ==> step.ToInventory?)
  {
  }

  /**
   Nothing holds the world back: any row of any outbox can be published, again and again; any key can be
   forgotten; any unfinished handler can die; and each does only that.
   */
  lemma WorldIsFree(s: System, party: Party, id: EventId, op: nat)
    ensures id in OutboxOf(s, party) ==>
              Apply(s, Publish(party, id)) == s.(log := s.log + [Message(id, OutboxOf(s, party)[id])])
    ensures Apply(s, Expire(OrderParty, id)) == s.(orders := Node(s.orders.db, s.orders.done - {id}))
    ensures Apply(s, Expire(PaymentParty, id)) == s.(payment := Node(s.payment.db, s.payment.done - {id}))
    ensures Apply(s, Expire(InventoryParty, id)) == s.(inventory := Node(s.inventory.db, s.inventory.done - {id}))
    ensures Apply(s, Expire(DeliveryParty, id)) == s.(delivery := Node(s.delivery.db, s.delivery.done - {id}))
    ensures op < |s.inflight| ==>
              Apply(s, OrderCrash(op)) == s.(inflight := s.inflight[..op] + s.inflight[op + 1..])
  {
  }

  /**
   Any unfinished handler can end next, whichever started last. It wins if and only if it wants to write and
   nobody wrote since its read; the store remembers its event either way, unless the store is down.
   */
  lemma AnyHandlerCanEnd(s: System, i: nat, reserveFails: bool)
    requires i < |s.inflight|
    ensures var s', op, rows := Apply(s, OrderWrite(i, reserveFails)), s.inflight[i], s.orders.db.rows;
      var order, wish := op.message.body.order, O.Target(op.message.body, op.seen);
      && s' == s.(orders := s'.orders, inflight := s.inflight[..i] + s.inflight[i + 1..])
      && s'.orders.done == (if reserveFails then s.orders.done else s.orders.done + {op.message.id})
      && s'.orders.db.outbox == s.orders.db.outbox
      && s'.orders.db.rows ==
         if wish.Write? && order < |rows| && rows[order].version == op.version
         then rows[order := rows[order].(status := wish.status, version := op.version + 1)] else rows
  {
  }

  /** Any published message can be delivered to any service, again and again, and a command can come at any time. */
  lemma DeliveryIsFree(s: System, at: nat, redis: Redis, w: P.World, cmd: O.Command)
    requires at < |s.log|
    ensures Apply(s, ToPayment(at, redis, w)).payment == P.Receive(s.payment, s.log[at], s.next, redis, w)
    ensures Apply(s, ToInventory(at, redis, w.fault)).inventory ==
            S.Receive(s.inventory, s.log[at], s.next, redis, w.fault)
    ensures Apply(s, ToDelivery(at, redis, w.fault)).delivery ==
            D.Receive(s.delivery, s.log[at], s.next, redis, w.fault)
    ensures Apply(s, Create(cmd, w.lookupFails, w.fault)).orders ==
            Node(O.OnCreate(s.orders.db, cmd, s.next, w.lookupFails, w.fault).db, s.orders.done)
  {
  }
}

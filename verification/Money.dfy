/** The gateway's books against the payments table. */
module Money {
  import opened Events
  import opened Idempotency
  import opened Saga
  import opened Guarantees
  import O = Orders
  import P = Payments
  import S = Stock

  datatype Scope = AllOrders | Only(order: nat)

  predicate Covers(scope: Scope, order: nat) {
    scope.AllOrders? || scope.order == order
  }

  /** Net money the gateway took: charges minus refunds. */
  function Moved(ledger: seq<P.Transfer>, scope: Scope): int {
    if ledger == [] then 0
    else
      var last := ledger[|ledger| - 1];
      Moved(ledger[..|ledger| - 1], scope) +
      if !Covers(scope, last.order) then 0 else if last.Charge? then last.amount else -last.amount
  }

  /** Money the table says was kept: the amounts of COMPLETED payments. */
  function Kept(rows: seq<P.Row>, scope: Scope): int {
    if rows == [] then 0
    else
      var last := rows[|rows| - 1];
      Kept(rows[..|rows| - 1], scope) + if Covers(scope, last.order) && last.status.Completed? then last.amount else 0
  }

  ghost predicate Balanced(p: P.Db) {
    forall scope :: Moved(p.ledger, scope) == Kept(p.rows, scope)
  }

  lemma MovedAppend(ledger: seq<P.Transfer>, t: P.Transfer, scope: Scope)
    ensures Moved(ledger + [t], scope) ==
            Moved(ledger, scope) + if !Covers(scope, t.order) then 0 else if t.Charge? then t.amount else -t.amount
  {
    assert (ledger + [t])[..|ledger|] == ledger;
  }

  lemma KeptAppend(rows: seq<P.Row>, row: P.Row, scope: Scope)
    ensures Kept(rows + [row], scope) ==
            Kept(rows, scope) + if Covers(scope, row.order) && row.status.Completed? then row.amount else 0
  {
    assert (rows + [row])[..|rows|] == rows;
  }

  lemma {:induction false} KeptRefund(rows: seq<P.Row>, i: nat, scope: Scope)
    requires i < |rows| && rows[i].status.Completed?
    ensures Kept(rows[i := rows[i].(status := P.Refunded)], scope) ==
            Kept(rows, scope) - if Covers(scope, rows[i].order) then rows[i].amount else 0
  {
    var rows' := rows[i := rows[i].(status := P.Refunded)];
    var n := |rows| - 1;
    if i == n {
      assert rows'[..n] == rows[..n];
    } else {
      assert rows'[..n] == rows[..n][i := rows[i].(status := P.Refunded)];
      KeptRefund(rows[..n], i, scope);
    }
  }

  /** The gateway charged, but no row was written: a failed insert, or a lookup error taken for "not found". */
  predicate ChargeLost(p: P.Db, id: EventId, order: nat, w: P.World) {
    && w.approve
    && w.fault != AtBegin
    && (w.lookupFails || !P.HasKey(p.rows, Key(order, id)))
    && (w.fault == AtWrite || P.HasKey(p.rows, Key(order, id)))
  }

  /** A charge keeps the books balanced exactly when its row is written. */
  lemma ChargeBalancesIff(p: P.Db, id: EventId, order: nat, amount: int, uuid: EventId, w: P.World)
    requires Balanced(p) && amount > 0
    ensures Balanced(P.OnOrderCreated(p, id, order, amount, uuid, w).db) <==> !ChargeLost(p, id, order, w)
  {
    var p' := P.OnOrderCreated(p, id, order, amount, uuid, w).db;
    forall scope
      ensures Moved(p'.ledger, scope) - Kept(p'.rows, scope) ==
              if ChargeLost(p, id, order, w) && Covers(scope, order) then amount else 0
    {
      MovedAppend(p.ledger, P.Charge(order, amount), scope);
      KeptAppend(p.rows, P.Row(order, amount, P.Completed, Key(order, id)), scope);
    }
    assert Moved(p'.ledger, AllOrders) - Kept(p'.rows, AllOrders) == if ChargeLost(p, id, order, w) then amount else 0;
  }

  /** The gateway paid back, but the row still says COMPLETED. */
  predicate RefundLost(p: P.Db, order: nat, fault: Fault) {
    var i := P.FindByOrder(p.rows, order);
    i >= 0 && p.rows[i].status.Completed? && fault == AtWrite
  }

  lemma RefundBalancesIff(p: P.Db, order: nat, uuid: EventId, fault: Fault)
    requires Balanced(p) && PaymentsSound(p.rows)
    ensures Balanced(P.OnStockReservationFailed(p, order, uuid, fault).db) <==> !RefundLost(p, order, fault)
  {
    var p' := P.OnStockReservationFailed(p, order, uuid, fault).db;
    var i := P.FindByOrder(p.rows, order);
    forall scope
      ensures Moved(p'.ledger, scope) - Kept(p'.rows, scope) ==
              if RefundLost(p, order, fault) && Covers(scope, order) then -p.rows[i].amount else 0
    {
      if i >= 0 && p.rows[i].status.Completed? {
        MovedAppend(p.ledger, P.Refund(order, p.rows[i].amount), scope);
        KeptRefund(p.rows, i, scope);
      }
    }
    assert Moved(p'.ledger, AllOrders) - Kept(p'.rows, AllOrders) ==
           if RefundLost(p, order, fault) then -p.rows[i].amount else 0;
  }

  ghost predicate PaymentsSound(rows: seq<P.Row>) {
    forall i :: 0 <= i < |rows| ==> rows[i].amount > 0 && (rows[i].status.Completed? || rows[i].status.Refunded?)
  }

  lemma AmountsArePositive(start: S.Product, s: System)
    requires Inv(start, s)
    ensures PaymentsSound(s.payment.db.rows)
  {
    var rows := s.payment.db.rows;
    forall i | 0 <= i < |rows|
      ensures rows[i].amount > 0 && (rows[i].status.Completed? || rows[i].status.Refunded?)
    {
      assert PaymentRowInv(s.orders.db.outbox, s.inventory.db.outbox, rows[i]);
      assert CreatedInv(s.orders.db.rows, s.orders.db.outbox[rows[i].key.event]);
    }
  }

  /** Delivering the message to the payment service moves money without its row. */
  predicate Loses(p: Node<P.Db>, m: Message, redis: Redis, w: P.World) {
    && (redis.checkFails || m.id !in p.done)
    && match m.body
       case OrderCreated(order, _, _) => ChargeLost(p.db, m.id, order, w)
       case StockReservationFailed(order, _) => RefundLost(p.db, order, w.fault)
       case _ => false
  }

  predicate Lossy(s: System, step: Step) {
    step.ToPayment? && step.at < |s.log| && Loses(s.payment, s.log[step.at], step.redis, step.world)
  }

  lemma BalanceReceive(node: Node<P.Db>, m: Message, next: EventId, redis: Redis, w: P.World)
    requires Balanced(node.db) && PaymentsSound(node.db.rows)
    requires m.body.OrderCreated? ==> m.body.amount > 0
    ensures Balanced(P.Receive(node, m, next, redis, w).db) <==> !Loses(node, m, redis, w)
  {
    match m.body {
      case OrderCreated(order, amount, _) => ChargeBalancesIff(node.db, m.id, order, amount, next, w);
      case StockReservationFailed(order, _) => RefundBalancesIff(node.db, order, next, w.fault);
      case _ =>
    }
  }

  lemma CreatedForMoney(start: S.Product, s: System, m: Message)
    requires Inv(start, s) && Issued(s, m) && m.body.OrderCreated?
    ensures m.body.amount > 0
  {
    assert CreatedInv(s.orders.db.rows, s.orders.db.outbox[m.id]);
  }

  lemma BalanceStep(start: S.Product, s: System, step: Step)
    requires Inv(start, s) && Balanced(s.payment.db)
    ensures Balanced(Apply(s, step).payment.db) <==> !Lossy(s, step)
  {
    if step.ToPayment? && step.at < |s.log| {
      var m := s.log[step.at];
      LogIsIssued(start, s, step.at);
      if m.body.OrderCreated? {
        CreatedForMoney(start, s, m);
      }
      AmountsArePositive(start, s);
      BalanceReceive(s.payment, m, s.next, step.redis, step.world);
    }
  }

  /** No step of the run loses money. */
  ghost predicate NothingLost(start: S.Product, steps: seq<Step>) {
    forall k :: 0 <= k < |steps| ==> !Lossy(Run(Init(start), steps[..k]), steps[k])
  }

  ghost predicate AlwaysBalanced(start: S.Product, steps: seq<Step>) {
    forall k :: 0 <= k <= |steps| ==> Balanced(Run(Init(start), steps[..k]).payment.db)
  }

  lemma {:induction false} BalanceNext(start: S.Product, steps: seq<Step>, k: nat)
    requires ValidStart(start) && k < |steps| && Balanced(Run(Init(start), steps[..k]).payment.db)
    ensures Balanced(Run(Init(start), steps[..k + 1]).payment.db) <==> !Lossy(Run(Init(start), steps[..k]), steps[k])
  {
    assert steps[..k + 1][..k] == steps[..k];
    InvRun(start, steps[..k]);
    BalanceStep(start, Run(Init(start), steps[..k]), steps[k]);
  }

  lemma {:induction false} BalancedPrefix(start: S.Product, steps: seq<Step>, k: nat)
    requires ValidStart(start) && k <= |steps| && NothingLost(start, steps)
    ensures Balanced(Run(Init(start), steps[..k]).payment.db)
  {
    if k == 0 {
      assert steps[..0] == [];
    } else {
      BalancedPrefix(start, steps, k - 1);
      BalanceNext(start, steps, k - 1);
    }
  }

  /** The books balance all along a run exactly when no step of it loses money. */
  lemma {:induction false} BooksBalanceIff(start: S.Product, steps: seq<Step>)
    requires ValidStart(start)
    ensures AlwaysBalanced(start, steps) <==> NothingLost(start, steps)
  {
    if NothingLost(start, steps) {
      forall k | 0 <= k <= |steps|
        ensures Balanced(Run(Init(start), steps[..k]).payment.db)
      {
        BalancedPrefix(start, steps, k);
      }
    }
    if AlwaysBalanced(start, steps) {
      forall k | 0 <= k < |steps|
        ensures !Lossy(Run(Init(start), steps[..k]), steps[k])
      {
        BalanceNext(start, steps, k);
      }
    }
  }

  /** What a caller can see beforehand: no cut between gateway and row, and every payment lookup answers. */
  predicate Careful(step: Step) {
    step.ToPayment? ==> step.world.fault != AtWrite && !step.world.lookupFails
  }

  lemma {:induction false} CarefulLosesNothing(start: S.Product, steps: seq<Step>)
    requires forall i :: 0 <= i < |steps| ==> Careful(steps[i])
    ensures NothingLost(start, steps)
  {
    forall k | 0 <= k < |steps|
      ensures !Lossy(Run(Init(start), steps[..k]), steps[k])
    {
      assert Careful(steps[k]);
    }
  }

  lemma {:induction false} KeptNothing(rows: seq<P.Row>, order: nat)
    requires forall j :: 0 <= j < |rows| ==> rows[j].order != order
    ensures Kept(rows, Only(order)) == 0
  {
    if rows != [] {
      KeptNothing(rows[..|rows| - 1], order);
    }
  }

  lemma {:induction false} KeptOnce(rows: seq<P.Row>, i: nat, order: nat)
    requires i < |rows| && rows[i].order == order
    requires forall j :: 0 <= j < |rows| && rows[j].order == order ==> j == i
    ensures Kept(rows, Only(order)) == if rows[i].status.Completed? then rows[i].amount else 0
  {
    var n := |rows| - 1;
    if i == n {
      KeptNothing(rows[..n], order);
    } else {
      KeptOnce(rows[..n], i, order);
    }
  }

  lemma KeptOfOrder(start: S.Product, s: System, order: nat)
    requires Inv(start, s) && order < |s.orders.db.rows|
    ensures Kept(s.payment.db.rows, Only(order)) ==
            if SolePayment(s, order, s.orders.db.rows[order].amount, P.Completed)
            then s.orders.db.rows[order].amount else 0
  {
    var rows := s.payment.db.rows;
    if i :| 0 <= i < |rows| && rows[i].order == order {
      assert PaymentRowInv(s.orders.db.outbox, s.inventory.db.outbox, rows[i]);
      assert CreatedInv(s.orders.db.rows, s.orders.db.outbox[rows[i].key.event]);
      KeptOnce(rows, i, order);
    } else {
      KeptNothing(rows, order);
    }
  }

  /**
   As long as nothing is lost the gateway holds exactly the amounts of the COMPLETED payments: in total,
   and for each order exactly its own amount if its one payment is COMPLETED, and nothing otherwise.
   Redelivered events do not change that.
   */
  lemma {:induction false} MoneyConserved(start: S.Product, steps: seq<Step>, order: nat)
    requires ValidStart(start) && NothingLost(start, steps)
    ensures var s := Run(Init(start), steps);
      && Moved(s.payment.db.ledger, AllOrders) == Kept(s.payment.db.rows, AllOrders)
      && (order < |s.orders.db.rows| ==>
            Moved(s.payment.db.ledger, Only(order)) ==
            if SolePayment(s, order, s.orders.db.rows[order].amount, P.Completed)
            then s.orders.db.rows[order].amount else 0)
  {
    var s := Run(Init(start), steps);
    InvRun(start, steps);
    BalancedPrefix(start, steps, |steps|);
    assert steps[..|steps|] == steps;
    if order < |s.orders.db.rows| {
      KeptOfOrder(start, s, order);
    }
  }

  lemma SoundRefund(p: P.Db, order: nat, uuid: EventId, fault: Fault)
    requires PaymentsSound(p.rows)
    ensures var p' := P.OnStockReservationFailed(p, order, uuid, fault).db;
      p'.rows != p.rows ==>
        var i := P.FindByOrder(p.rows, order);
        i >= 0 && p.rows[i].status == P.Completed && p'.rows == p.rows[i := p.rows[i].(status := P.Refunded)]
  {
  }

  /** The unguarded REFUNDED write agrees with Payment.Refund: it only ever meets a COMPLETED payment. */
  lemma {:induction false} RefundWriteIsAllowed(start: S.Product, steps: seq<Step>, order: nat, uuid: EventId,
                                                fault: Fault)
    requires ValidStart(start)
    ensures var p := Run(Init(start), steps).payment.db;
      var p' := P.OnStockReservationFailed(p, order, uuid, fault).db;
      p'.rows != p.rows ==>
        var i := P.FindByOrder(p.rows, order);
        i >= 0 && p.rows[i].status == P.Completed && p'.rows == p.rows[i := p.rows[i].(status := P.Refunded)]
  {
    InvRun(start, steps);
    AmountsArePositive(start, Run(Init(start), steps));
    SoundRefund(Run(Init(start), steps).payment.db, order, uuid, fault);
  }

  /** One failed lookup on a redelivered event is enough to charge an order twice for one payment. */
  lemma LookupFailureChargesTwice(id: EventId, uuid: EventId, uuid': EventId)
    ensures var world := P.World(true, false, NoFault);
      var once := P.OnOrderCreated(P.Db([], map[], []), id, 0, 5, uuid, world).db;
      var twice := P.OnOrderCreated(once, id, 0, 5, uuid', world.(lookupFails := true));
      !twice.ok && |twice.db.rows| == 1 && Moved(twice.db.ledger, Only(0)) == 10
  {
    var world := P.World(true, false, NoFault);
    var once := P.OnOrderCreated(P.Db([], map[], []), id, 0, 5, uuid, world).db;
    assert once.rows[0].key == Key(0, id);
    assert once.ledger == [P.Charge(0, 5)];
    assert once.ledger[..0] == [];
    MovedAppend(once.ledger, P.Charge(0, 5), Only(0));
  }
}

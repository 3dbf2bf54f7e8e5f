/** How far an order's status can still move in the closed system. */
module Lifecycle {
  import opened Events
  import opened Idempotency
  import opened Saga
  import opened Guarantees
  import H = OrderHistory
  import O = Orders
  import P = Payments
  import S = Stock

  // ------------------------------------------------ one verdict per order

  ghost predicate Refused(s: System, order: nat) {
    Has(s.payment.db.outbox, PaymentFailedV1, order)
  }

  /** No order is both paid for and told that its payment was declined. */
  ghost predicate OneVerdict(s: System) {
    forall o :: !(Refused(s, o) && Paid(s, o))
  }

  /** The step runs the payment handler (not just the store check) on an order.created event. */
  predicate Charges(s: System, step: Step) {
    && step.ToPayment? && step.at < |s.log| && s.log[step.at].body.OrderCreated?
    && (step.redis.checkFails || s.log[step.at].id !in s.payment.done)
  }

  /** Identifiers of the order.created events the payment handler has run on. */
  function Charged(start: S.Product, steps: seq<Step>): set<EventId>
    decreases |steps|
  {
    if steps == [] then {}
    else
      var before := steps[..|steps| - 1];
      var s, step := Run(Init(start), before), steps[|steps| - 1];
      Charged(start, before) + if Charges(s, step) then {s.log[step.at].id} else {}
  }

  /** The payment handler runs at most once on each order.created event. */
  ghost predicate HandledOnce(start: S.Product, steps: seq<Step>) {
    forall k :: 0 <= k < |steps| ==> ChargesAfresh(start, steps, k)
  }

  /** Every verdict on an order came from a charged order.created event. */
  ghost predicate VerdictsCharged(s: System, charged: set<EventId>) {
    forall e :: e in s.orders.db.outbox && e !in charged ==>
      !Refused(s, s.orders.db.outbox[e].order) && !Paid(s, s.orders.db.outbox[e].order)
  }

  lemma PaymentFound(rows: seq<P.Row>, order: nat, i: nat)
    requires i < |rows| && rows[i].order == order
    ensures HasPayment(rows, order)
  {
  }

  /** The payment service adds no verdict but that of the order it charges, and one at most. */
  lemma ChargeVerdicts(p: P.Db, id: EventId, charged: nat, amount: int, uuid: EventId, w: P.World, order: nat)
    requires uuid !in p.outbox
    ensures var p' := P.OnOrderCreated(p, id, charged, amount, uuid, w).db;
      && (Has(p'.outbox, PaymentFailedV1, order) ==>
            Has(p.outbox, PaymentFailedV1, order) || (order == charged && p'.rows == p.rows))
      && (HasPayment(p'.rows, order) ==> HasPayment(p.rows, order) || order == charged)
  {
    var p' := P.OnOrderCreated(p, id, charged, amount, uuid, w).db;
    if Has(p'.outbox, PaymentFailedV1, order) {
      var e :| e in p'.outbox && TopicOf(p'.outbox[e]) == PaymentFailedV1 && p'.outbox[e].order == order;
      assert e != uuid ==> e in p.outbox && p.outbox[e] == p'.outbox[e];
    }
    if HasPayment(p'.rows, order) {
      var i :| 0 <= i < |p'.rows| && p'.rows[i].order == order;
      if i < |p.rows| {
        PaymentFound(p.rows, order, i);
      }
    }
  }

  lemma RefundVerdicts(p: P.Db, failed: nat, uuid: EventId, fault: Fault, order: nat)
    requires uuid !in p.outbox
    ensures var p' := P.OnStockReservationFailed(p, failed, uuid, fault).db;
      && (Has(p'.outbox, PaymentFailedV1, order) ==> Has(p.outbox, PaymentFailedV1, order))
      && (HasPayment(p'.rows, order) ==> HasPayment(p.rows, order))
  {
    var p' := P.OnStockReservationFailed(p, failed, uuid, fault).db;
    if Has(p'.outbox, PaymentFailedV1, order) {
      var e :| e in p'.outbox && TopicOf(p'.outbox[e]) == PaymentFailedV1 && p'.outbox[e].order == order;
      assert e in p.outbox && p.outbox[e] == p'.outbox[e];
    }
    if HasPayment(p'.rows, order) {
      var i :| 0 <= i < |p'.rows| && p'.rows[i].order == order;
      PaymentFound(p.rows, order, i);
    }
  }

  /** A step that does not charge the order gives it no new verdict; a first charge gives it one. */
  lemma VerdictsOf(s: System, step: Step, order: nat)
    requires s.next !in s.payment.db.outbox
    ensures var s' := Apply(s, step);
      var charges := Charges(s, step) && s.log[step.at].body.order == order;
      && (!charges ==> (Refused(s', order) ==> Refused(s, order)) && (Paid(s', order) ==> Paid(s, order)))
      && (!Refused(s, order) && !Paid(s, order) ==> !(Refused(s', order) && Paid(s', order)))
  {
    OnlyDeliveriesToPayment(s, step);
    if step.ToPayment? && step.at < |s.log| {
      var m := s.log[step.at];
      match m.body {
        case OrderCreated(charged, amount, _) =>
          ChargeVerdicts(s.payment.db, m.id, charged, amount, s.next, step.world, order);
        case StockReservationFailed(failed, _) =>
          RefundVerdicts(s.payment.db, failed, s.next, step.world.fault, order);
        case _ =>
      }
    }
  }

  lemma PaidKey(start: S.Product, s: System, m: Message)
    requires Inv(start, s) && Issued(s, m) && m.body.OrderCreated? && Paid(s, m.body.order)
    ensures P.HasKey(s.payment.db.rows, Key(m.body.order, m.id))
  {
    var i :| 0 <= i < |s.payment.db.rows| && s.payment.db.rows[i].order == m.body.order;
    PaidUnderItsKey(s.orders.db.outbox, s.inventory.db.outbox, s.payment.db, m.id, m.body.order, i, s.next);
  }

  lemma OrderOfKey(start: S.Product, s: System, order: nat, id: EventId)
    requires Inv(start, s) && !Paid(s, order)
    ensures !P.HasKey(s.payment.db.rows, Key(order, id))
  {
    forall i | 0 <= i < |s.payment.db.rows|
      ensures s.payment.db.rows[i].key != Key(order, id)
    {
      assert PaymentRowInv(s.orders.db.outbox, s.inventory.db.outbox, s.payment.db.rows[i]);
    }
  }

  // ------------------------------------------------ exactly which steps contradict an earlier verdict

  /**
   The payment handler runs on an order.created event whose order already has the other verdict: a
   declined order is charged and stored, or a paid one is declined because its lookup fails.
   */
  ghost predicate Contradicts(s: System, step: Step) {
    && Charges(s, step)
    && var m, w := s.log[step.at], step.world;
      || (Refused(s, m.body.order) && w.approve && w.fault != AtBegin && w.fault != AtWrite &&
          !P.HasKey(s.payment.db.rows, Key(m.body.order, m.id)))
      || (Paid(s, m.body.order) && w.lookupFails && !w.approve && w.fault != AtBegin && Commits(w.fault))
  }

  ghost predicate BothVerdictsOf(p: P.Db, order: nat) {
    Has(p.outbox, PaymentFailedV1, order) && HasPayment(p.rows, order)
  }

  lemma RefusalStays(p: P.Db, id: EventId, order: nat, amount: int, uuid: EventId, w: P.World)
    requires uuid !in p.outbox && Has(p.outbox, PaymentFailedV1, order)
    ensures Has(P.OnOrderCreated(p, id, order, amount, uuid, w).db.outbox, PaymentFailedV1, order)
  {
    HasGrows(p.outbox, P.OnOrderCreated(p, id, order, amount, uuid, w).db.outbox, PaymentFailedV1, order);
  }

  lemma PaymentStays(p: P.Db, id: EventId, order: nat, amount: int, uuid: EventId, w: P.World)
    requires HasPayment(p.rows, order)
    ensures HasPayment(P.OnOrderCreated(p, id, order, amount, uuid, w).db.rows, order)
  {
    var i :| 0 <= i < |p.rows| && p.rows[i].order == order;
    PaymentFound(P.OnOrderCreated(p, id, order, amount, uuid, w).db.rows, order, i);
  }

  /** When charging a refused order pays it, and when charging a paid one refuses it. */
  lemma NewVerdictIff(p: P.Db, id: EventId, order: nat, amount: int, uuid: EventId, w: P.World)
    requires uuid !in p.outbox && (HasPayment(p.rows, order) <==> P.HasKey(p.rows, Key(order, id)))
    ensures var p' := P.OnOrderCreated(p, id, order, amount, uuid, w).db;
      && (!HasPayment(p.rows, order) ==>
            (HasPayment(p'.rows, order) <==> w.approve && w.fault != AtBegin && w.fault != AtWrite))
      && (HasPayment(p.rows, order) && !Has(p.outbox, PaymentFailedV1, order) ==>
            (Has(p'.outbox, PaymentFailedV1, order) <==>
               w.lookupFails && !w.approve && w.fault != AtBegin && Commits(w.fault)))
  {
    var p' := P.OnOrderCreated(p, id, order, amount, uuid, w).db;
    ChargeVerdicts(p, id, order, amount, uuid, w, order);
    if !HasPayment(p.rows, order) && |p'.rows| > |p.rows| {
      PaymentFound(p'.rows, order, |p.rows|);
    }
    if uuid in p'.outbox && p'.outbox[uuid] == PaymentFailed(order) {
      HasAdded(p.outbox, uuid, PaymentFailed(order));
    }
  }

  lemma ContradictionIff(p: P.Db, id: EventId, order: nat, amount: int, uuid: EventId, w: P.World)
    requires uuid !in p.outbox && (HasPayment(p.rows, order) <==> P.HasKey(p.rows, Key(order, id)))
    requires !BothVerdictsOf(p, order)
    ensures BothVerdictsOf(P.OnOrderCreated(p, id, order, amount, uuid, w).db, order) <==>
            || (Has(p.outbox, PaymentFailedV1, order) && w.approve && w.fault != AtBegin && w.fault != AtWrite)
            || (HasPayment(p.rows, order) && w.lookupFails && !w.approve && w.fault != AtBegin && Commits(w.fault))
  {
    NewVerdictIff(p, id, order, amount, uuid, w);
    ChargeVerdicts(p, id, order, amount, uuid, w, order);
    if Has(p.outbox, PaymentFailedV1, order) {
      RefusalStays(p, id, order, amount, uuid, w);
    } else if HasPayment(p.rows, order) {
      PaymentStays(p, id, order, amount, uuid, w);
    }
  }

  lemma PaidIffKey(start: S.Product, s: System, m: Message)
    requires Inv(start, s) && Issued(s, m) && m.body.OrderCreated?
    ensures Paid(s, m.body.order) <==> P.HasKey(s.payment.db.rows, Key(m.body.order, m.id))
  {
    if Paid(s, m.body.order) {
      PaidKey(start, s, m);
    } else {
      OrderOfKey(start, s, m.body.order, m.id);
    }
  }

  lemma ChargeStep(start: S.Product, s: System, step: Step)
    requires Inv(start, s) && Charges(s, step) && !BothVerdictsOf(s.payment.db, s.log[step.at].body.order)
    ensures BothVerdictsOf(Apply(s, step).payment.db, s.log[step.at].body.order) <==> Contradicts(s, step)
  {
    var m := s.log[step.at];
    LogIsIssued(start, s, step.at);
    PaidIffKey(start, s, m);
    ContradictionIff(s.payment.db, m.id, m.body.order, m.body.amount, s.next, step.world);
  }

  /** A step keeps all verdicts single if and only if it does not contradict one. */
  lemma OneVerdictStepIff(start: S.Product, s: System, step: Step)
    requires Inv(start, s) && OneVerdict(s)
    ensures OneVerdict(Apply(s, step)) <==> !Contradicts(s, step)
  {
    var s' := Apply(s, step);
    if Charges(s, step) {
      var order := s.log[step.at].body.order;
      assert !(Refused(s, order) && Paid(s, order));
      ChargeStep(start, s, step);
      assert Contradicts(s, step) <==> Refused(s', order) && Paid(s', order);
    }
    if !Contradicts(s, step) {
      forall o
        ensures !(Refused(s', o) && Paid(s', o))
      {
        if !(Charges(s, step) && s.log[step.at].body.order == o) {
          VerdictsOf(s, step, o);
        }
      }
    }
  }

  ghost predicate AlwaysOneVerdict(start: S.Product, steps: seq<Step>) {
    forall k :: 0 <= k <= |steps| ==> OneVerdict(Run(Init(start), steps[..k]))
  }

  ghost predicate NeverContradicts(start: S.Product, steps: seq<Step>) {
    forall k :: 0 <= k < |steps| ==> !Contradicts(Run(Init(start), steps[..k]), steps[k])
  }

  lemma {:induction false} VerdictNext(start: S.Product, steps: seq<Step>, k: nat)
    requires ValidStart(start) && k < |steps| && OneVerdict(Run(Init(start), steps[..k]))
    ensures OneVerdict(Run(Init(start), steps[..k + 1])) <==> !Contradicts(Run(Init(start), steps[..k]), steps[k])
  {
    assert steps[..k + 1] == steps[..k] + [steps[k]];
    RunNext(Init(start), steps[..k], steps[k]);
    InvRun(start, steps[..k]);
    OneVerdictStepIff(start, Run(Init(start), steps[..k]), steps[k]);
  }

  lemma {:induction false} VerdictPrefix(start: S.Product, steps: seq<Step>, k: nat)
    requires ValidStart(start) && k <= |steps|
    requires forall i :: 0 <= i < k ==> !Contradicts(Run(Init(start), steps[..i]), steps[i])
    ensures OneVerdict(Run(Init(start), steps[..k]))
  {
    if k == 0 {
      assert steps[..0] == [];
    } else {
      VerdictPrefix(start, steps, k - 1);
      VerdictNext(start, steps, k - 1);
    }
  }

  /** All along a run no order is both paid and declined, if and only if no step contradicts an earlier verdict. */
  lemma {:induction false} OneVerdictIff(start: S.Product, steps: seq<Step>)
    requires ValidStart(start)
    ensures AlwaysOneVerdict(start, steps) <==> NeverContradicts(start, steps)
  {
    if NeverContradicts(start, steps) {
      forall k | 0 <= k <= |steps|
        ensures OneVerdict(Run(Init(start), steps[..k]))
      {
        VerdictPrefix(start, steps, k);
      }
    }
    if AlwaysOneVerdict(start, steps) {
      forall k | 0 <= k < |steps|
        ensures !Contradicts(Run(Init(start), steps[..k]), steps[k])
      {
        VerdictNext(start, steps, k);
      }
    }
  }

  // ------------------------------------------------ handling each order.created once is enough

  /** A first charge meets no earlier verdict. */
  lemma FirstChargeAgrees(start: S.Product, s: System, step: Step, charged: set<EventId>)
    requires Inv(start, s) && VerdictsCharged(s, charged)
    requires Charges(s, step) ==> s.log[step.at].id !in charged
    ensures !Contradicts(s, step)
  {
    if Charges(s, step) {
      LogIsIssued(start, s, step.at);
    }
  }

  lemma VerdictStep(start: S.Product, s: System, step: Step, charged: set<EventId>)
    requires Inv(start, s) && OneVerdict(s) && VerdictsCharged(s, charged)
    requires Charges(s, step) ==> s.log[step.at].id !in charged
    ensures var s' := Apply(s, step);
      var charged' := charged + if Charges(s, step) then {s.log[step.at].id} else {};
      OneVerdict(s') && VerdictsCharged(s', charged')
  {
    var s' := Apply(s, step);
    var charged' := charged + if Charges(s, step) then {s.log[step.at].id} else {};
    FirstChargeAgrees(start, s, step, charged);
    OneVerdictStepIff(start, s, step);
    forall e | e in s'.orders.db.outbox && e !in charged'
      ensures var o := s'.orders.db.outbox[e].order; !Refused(s', o) && !Paid(s', o)
    {
      NewOrderHasNoVerdict(start, s, step, e, charged);
      VerdictsOf(s, step, s'.orders.db.outbox[e].order);
    }
  }

  lemma CreatedByStep(start: S.Product, s: System, step: Step, e: EventId)
    requires Inv(start, s) && e in Apply(s, step).orders.db.outbox
    ensures e in s.orders.db.outbox ==> Apply(s, step).orders.db.outbox[e] == s.orders.db.outbox[e]
    ensures e !in s.orders.db.outbox ==> Apply(s, step).orders.db.outbox[e].order == |s.orders.db.rows| && step.Create?
  {
  }

  /** An uncharged order.created event's order has no verdict, and this step is not charging it. */
  lemma NewOrderHasNoVerdict(start: S.Product, s: System, step: Step, e: EventId, charged: set<EventId>)
    requires Inv(start, s) && VerdictsCharged(s, charged)
    requires e in Apply(s, step).orders.db.outbox && e !in charged
    requires Charges(s, step) ==> s.log[step.at].id != e
    ensures var o := Apply(s, step).orders.db.outbox[e].order;
      !Refused(s, o) && !Paid(s, o) && (Charges(s, step) ==> s.log[step.at].body.order != o)
  {
    CreatedByStep(start, s, step, e);
    if e in s.orders.db.outbox {
      if Charges(s, step) {
        assert Issued(s, s.log[step.at]);
        assert TopicOf(s.orders.db.outbox[e]) == OrderCreatedV1 == TopicOf(s.log[step.at].body);
      }
    } else {
      VerdictHasOrder(start, s, |s.orders.db.rows|);
    }
  }

  lemma VerdictHasOrder(start: S.Product, s: System, order: nat)
    requires Inv(start, s)
    ensures Refused(s, order) || Paid(s, order) ==> order < |s.orders.db.rows|
  {
    var created, out := s.orders.db.outbox, s.payment.db.outbox;
    if Refused(s, order) {
      var e :| e in out && TopicOf(out[e]) == PaymentFailedV1 && out[e].order == order;
      assert PaymentEventInv(created, s.payment.db.rows, out[e]);
      var f :| f in created && TopicOf(created[f]) == OrderCreatedV1 && created[f].order == order;
      assert CreatedInv(s.orders.db.rows, created[f]);
    } else if Paid(s, order) {
      var i :| 0 <= i < |s.payment.db.rows| && s.payment.db.rows[i].order == order;
      assert PaymentRowInv(created, s.inventory.db.outbox, s.payment.db.rows[i]);
      assert CreatedInv(s.orders.db.rows, created[s.payment.db.rows[i].key.event]);
    }
  }

  ghost predicate ChargesAfresh(start: S.Product, steps: seq<Step>, k: nat)
    requires k < |steps|
  {
    var s := Run(Init(start), steps[..k]);
    Charges(s, steps[k]) ==> s.log[steps[k].at].id !in Charged(start, steps[..k])
  }

  lemma {:induction false} HandledOncePrefix(start: S.Product, steps: seq<Step>, n: nat)
    requires HandledOnce(start, steps) && n <= |steps|
    ensures HandledOnce(start, steps[..n])
  {
    forall k | 0 <= k < n
      ensures ChargesAfresh(start, steps[..n], k)
    {
      assert ChargesAfresh(start, steps, k);
      assert steps[..n][..k] == steps[..k];
    }
  }

  lemma {:induction false} OneVerdictRun(start: S.Product, steps: seq<Step>)
    requires ValidStart(start) && HandledOnce(start, steps)
    ensures var s := Run(Init(start), steps);
      OneVerdict(s) && VerdictsCharged(s, Charged(start, steps))
    decreases |steps|
  {
    if steps != [] {
      var n := |steps| - 1;
      HandledOncePrefix(start, steps, n);
      OneVerdictRun(start, steps[..n]);
      InvRun(start, steps[..n]);
      assert ChargesAfresh(start, steps, n);
      VerdictStep(start, Run(Init(start), steps[..n]), steps[n], Charged(start, steps[..n]));
    }
  }

  /** Handling each order.created at most once is a simple way never to contradict a verdict. */
  lemma {:induction false} HandledOnceNeverContradicts(start: S.Product, steps: seq<Step>)
    requires ValidStart(start) && HandledOnce(start, steps)
    ensures NeverContradicts(start, steps)
  {
    forall k | 0 <= k < |steps|
      ensures !Contradicts(Run(Init(start), steps[..k]), steps[k])
    {
      HandledOncePrefix(start, steps, k);
      OneVerdictRun(start, steps[..k]);
      InvRun(start, steps[..k]);
      assert ChargesAfresh(start, steps, k);
      FirstChargeAgrees(start, Run(Init(start), steps[..k]), steps[k], Charged(start, steps[..k]));
    }
  }

  lemma {:induction false} NeverContradictsPrefix(start: S.Product, steps: seq<Step>, n: nat)
    requires NeverContradicts(start, steps) && n <= |steps|
    ensures NeverContradicts(start, steps[..n])
  {
    forall k | 0 <= k < n
      ensures !Contradicts(Run(Init(start), steps[..n][..k]), steps[..n][k])
    {
      assert steps[..n][..k] == steps[..k];
    }
  }

  // ------------------------------------------------ terminal statuses absorb

  /** Progress of an order; PAYMENT_PROCESSING is never written. */
  function Rank(status: O.OrderStatus): nat {
    match status
    case StockReserving => 1
    case DeliveryPreparing => 2
    case Completed => 3
    case Canceled => 3
    case Failed => 3
    case _ => 0
  }

  lemma ReservedOrderIsPaid(start: S.Product, s: System, order: nat)
    requires Inv(start, s) && Has(s.inventory.db.outbox, StockReservedV1, order)
    ensures Paid(s, order) && !Has(s.inventory.db.outbox, StockReservationFailedV1, order)
  {
    ReservedEvent(start, s, order);
    ReservedWasPaid(start, s, order);
    NeverBoth(start, s, order);
  }

  lemma CompletedEventIsPaid(start: S.Product, s: System, order: nat)
    requires Inv(start, s) && Has(s.payment.db.outbox, PaymentCompletedV1, order)
    ensures Paid(s, order)
  {
    var out := s.payment.db.outbox;
    var e :| e in out && TopicOf(out[e]) == PaymentCompletedV1 && out[e].order == order;
    assert PaymentEventInv(s.orders.db.outbox, s.payment.db.rows, out[e]);
  }

  /** What a backed status says about the order's payment and stock. */
  lemma StatusEvidence(start: S.Product, s: System, order: nat, status: O.OrderStatus)
    requires Inv(start, s) && Backed(s, order, status)
    ensures status.StockReserving? || status.DeliveryPreparing? || status.Completed? || status.Failed? ==>
              Paid(s, order)
    ensures status.DeliveryPreparing? || status.Completed? ==>
              !Has(s.inventory.db.outbox, StockReservationFailedV1, order)
    ensures status.Canceled? ==> Refused(s, order)
  {
    match status {
      case StockReserving => CompletedEventIsPaid(start, s, order);
      case DeliveryPreparing => ReservedOrderIsPaid(start, s, order);
      case Completed =>
        ShippedEvent(start, s, order);
        ShippedWasReserved(start, s, order);
        ReservedWasPaid(start, s, order);
        NeverBoth(start, s, order);
      case Failed =>
        FailedOrderHoldsNothing(start, s, order);
        CompletedEventIsPaid(start, s, order);
      case _ =>
    }
  }

  lemma ForwardRank(body: Event, status: O.OrderStatus)
    requires H.Forward(body) && O.Target(body, status).Write?
    ensures !O.Terminal(status) && Rank(status) < Rank(O.Target(body, status).status)
  {
  }

  lemma FailureRank(body: Event, status: O.OrderStatus)
    requires !H.Forward(body) && O.Target(body, status).Write? && !O.Terminal(status)
    ensures H.Leads(status, O.Target(body, status).status) && Rank(status) < Rank(O.Target(body, status).status)
  {
    H.PathLeads([status, O.Target(body, status).status]);
  }

  /** The evidence behind a terminal status rules out every failure event for another one. */
  lemma FailureMeetsOpenOrder(start: S.Product, s: System, m: Message, status: O.OrderStatus)
    requires Inv(start, s) && OneVerdict(s) && Issued(s, m) && Backed(s, m.body.order, status)
    requires !H.Forward(m.body) && O.Target(m.body, status).Write? && O.Target(m.body, status).status != status
    ensures !O.Terminal(status)
  {
    IssuedMeansHas(s, m);
    StatusEvidence(start, s, m.body.order, status);
    TargetBacked(start, s, m, status);
    StatusEvidence(start, s, m.body.order, O.Target(m.body, status).status);
  }

  /** With one verdict per order, a status only ever moves up the table. */
  lemma TargetGoesUp(start: S.Product, s: System, m: Message, status: O.OrderStatus)
    requires Inv(start, s) && OneVerdict(s) && Issued(s, m) && Backed(s, m.body.order, status)
    requires O.Target(m.body, status).Write? && O.Target(m.body, status).status != status
    ensures var after := O.Target(m.body, status).status;
      !O.Terminal(status) && H.Leads(status, after) && Rank(status) < Rank(after)
  {
    if H.Forward(m.body) {
      H.ForwardTargetLeads(m.body, status);
      ForwardRank(m.body, status);
    } else {
      FailureMeetsOpenOrder(start, s, m, status);
      FailureRank(m.body, status);
    }
  }

  ghost predicate MovesUp(before: O.OrderStatus, after: O.OrderStatus) {
    after == before || (!O.Terminal(before) && H.Leads(before, after) && Rank(before) < Rank(after))
  }

  lemma RowsAfter(s: System, step: Step)
    ensures var rows, rows' := s.orders.db.rows, Apply(s, step).orders.db.rows;
      if step.OrderWrite? && step.op < |s.inflight| then rows' == O.Finish(rows, s.inflight[step.op])
      else RowsExtend(rows, rows')
  {
  }

  lemma StatusStep(start: S.Product, s: System, step: Step, order: nat)
    requires Inv(start, s) && OneVerdict(s) && order < |s.orders.db.rows|
    ensures order < |Apply(s, step).orders.db.rows|
    ensures MovesUp(s.orders.db.rows[order].status, Apply(s, step).orders.db.rows[order].status)
  {
    RowsAfter(s, step);
    if step.OrderWrite? && step.op < |s.inflight| {
      var op, status := s.inflight[step.op], s.orders.db.rows[order].status;
      assert OpInv(s, op) && Backed(s, order, status);
      H.FinishRow(s.orders.db.rows, op, order);
      if Apply(s, step).orders.db.rows[order].status != status {
        TargetGoesUp(start, s, op.message, status);
      }
    }
  }

  /** The last step of the run changed the order's status. */
  predicate LastChanges(start: S.Product, steps: seq<Step>, order: nat)
    requires steps != []
  {
    var before := Run(Init(start), steps[..|steps| - 1]).orders.db.rows;
    var after := Run(Init(start), steps).orders.db.rows;
    order < |before| && order < |after| && before[order].status != after[order].status
  }

  /** How often the order's status changed along the run. */
  function Changes(start: S.Product, steps: seq<Step>, order: nat): nat
    decreases |steps|
  {
    if steps == [] then 0
    else Changes(start, steps[..|steps| - 1], order) + if LastChanges(start, steps, order) then 1 else 0
  }

  predicate ChangesAt(start: S.Product, steps: seq<Step>, order: nat, k: nat)
    requires k < |steps|
  {
    LastChanges(start, steps[..k + 1], order)
  }

  /** The steps that changed the order's status. */
  function ChangingSteps(start: S.Product, steps: seq<Step>, order: nat): set<nat> {
    set k | 0 <= k < |steps| && ChangesAt(start, steps, order, k)
  }

  lemma ChangesAtPrefix(start: S.Product, steps: seq<Step>, order: nat, k: nat)
    requires k < |steps| - 1
    ensures ChangesAt(start, steps[..|steps| - 1], order, k) == ChangesAt(start, steps, order, k)
  {
    assert steps[..|steps| - 1][..k + 1] == steps[..k + 1];
  }

  lemma ChangingNext(start: S.Product, steps: seq<Step>, order: nat)
    requires steps != []
    ensures var n := |steps| - 1;
      ChangingSteps(start, steps, order) ==
      ChangingSteps(start, steps[..n], order) + if LastChanges(start, steps, order) then {n} else {}
  {
    var n := |steps| - 1;
    assert steps[..n + 1] == steps;
    forall k: nat
      ensures k in ChangingSteps(start, steps, order) <==>
              k in ChangingSteps(start, steps[..n], order) || (k == n && LastChanges(start, steps, order))
    {
      if k < n {
        ChangesAtPrefix(start, steps, order, k);
      }
    }
  }

  /** The count is the number of steps that changed it. */
  lemma {:induction false} ChangesAreCounted(start: S.Product, steps: seq<Step>, order: nat)
    ensures Changes(start, steps, order) == |ChangingSteps(start, steps, order)|
    decreases |steps|
  {
    if steps != [] {
      ChangesAreCounted(start, steps[..|steps| - 1], order);
      ChangingNext(start, steps, order);
    }
  }

  /**
   While no verdict is contradicted, whatever happens next: every status change is a non-empty path of
   the transition table that does not start in a terminal status.
   */
  lemma {:induction false} TerminalStatusesAbsorb(start: S.Product, steps: seq<Step>, step: Step, order: nat)
    requires ValidStart(start) && NeverContradicts(start, steps)
    ensures var s, s' := Run(Init(start), steps), Apply(Run(Init(start), steps), step);
      order < |s.orders.db.rows| ==>
        && order < |s'.orders.db.rows|
        && MovesUp(s.orders.db.rows[order].status, s'.orders.db.rows[order].status)
  {
    InvRun(start, steps);
    VerdictPrefix(start, steps, |steps|);
    assert steps[..|steps|] == steps;
    if order < |Run(Init(start), steps).orders.db.rows| {
      StatusStep(start, Run(Init(start), steps), step, order);
    }
  }

  lemma {:induction false} ChangesWithinRank(start: S.Product, steps: seq<Step>, order: nat)
    requires ValidStart(start) && NeverContradicts(start, steps)
    ensures var rows := Run(Init(start), steps).orders.db.rows;
      Changes(start, steps, order) <= if order < |rows| then Rank(rows[order].status) else 0
    decreases |steps|
  {
    if steps != [] {
      var n := |steps| - 1;
      NeverContradictsPrefix(start, steps, n);
      ChangesWithinRank(start, steps[..n], order);
      TerminalStatusesAbsorb(start, steps[..n], steps[n], order);
    }
  }

  /** ... and an order changes its status at most three times. */
  lemma {:induction false} AtMostThreeChanges(start: S.Product, steps: seq<Step>, order: nat)
    requires ValidStart(start) && NeverContradicts(start, steps)
    ensures Changes(start, steps, order) <= 3
  {
    ChangesWithinRank(start, steps, order);
  }
}

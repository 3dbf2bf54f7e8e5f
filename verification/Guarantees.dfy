/** What the saga guarantees in every reachable state, whatever is lost, repeated, reordered or cut short. */
module Guarantees {
  import opened Basics
  import opened Events
  import opened Idempotency
  import opened Saga
  import O = Orders
  import P = Payments
  import S = Stock
  import D = Deliveries

  /** The order's one payment, with this amount and status. */
  ghost predicate SolePayment(s: System, order: nat, amount: int, status: P.PaymentStatus) {
    exists i :: 0 <= i < |s.payment.db.rows| && s.payment.db.rows[i].order == order &&
      s.payment.db.rows[i].amount == amount && s.payment.db.rows[i].status == status &&
      forall j :: 0 <= j < |s.payment.db.rows| && s.payment.db.rows[j].order == order ==> j == i
  }

  ghost predicate SoleReservation(s: System, order: nat) {
    exists i :: 0 <= i < |s.inventory.db.reservations| && s.inventory.db.reservations[i].order == order &&
      s.inventory.db.reservations[i].status == S.Reserved &&
      forall j :: 0 <= j < |s.inventory.db.reservations| && s.inventory.db.reservations[j].order == order ==> j == i
  }

  ghost predicate SoleDelivery(s: System, order: nat) {
    exists i :: 0 <= i < |s.delivery.db.rows| && s.delivery.db.rows[i].order == order &&
      forall j :: 0 <= j < |s.delivery.db.rows| && s.delivery.db.rows[j].order == order ==> j == i
  }

  ghost predicate HasPayment(rows: seq<P.Row>, order: nat) {
    exists i :: 0 <= i < |rows| && rows[i].order == order
  }

  ghost predicate Paid(s: System, order: nat) {
    HasPayment(s.payment.db.rows, order)
  }

  ghost predicate Refunded(s: System, order: nat) {
    exists i :: 0 <= i < |s.payment.db.rows| && s.payment.db.rows[i].order == order &&
      s.payment.db.rows[i].status.Refunded?
  }

  ghost predicate Reserved(s: System, order: nat) {
    exists i :: 0 <= i < |s.inventory.db.reservations| && s.inventory.db.reservations[i].order == order
  }

  ghost predicate Shipped(s: System, order: nat) {
    exists i :: 0 <= i < |s.delivery.db.rows| && s.delivery.db.rows[i].order == order
  }

  // ------------------------------------------------ from an event back to the row that caused it

  lemma ReservedEvent(start: S.Product, s: System, order: nat)
    requires Inv(start, s) && Has(s.inventory.db.outbox, StockReservedV1, order)
    ensures Reserved(s, order)
  {
    var outbox := s.inventory.db.outbox;
    var e :| e in outbox && TopicOf(outbox[e]) == StockReservedV1 && outbox[e].order == order;
    assert StockEventInv(s.payment.db.outbox, s.inventory.db, outbox[e]);
  }

  lemma ShippedEvent(start: S.Product, s: System, order: nat)
    requires Inv(start, s) && Has(s.delivery.db.outbox, DeliveryStartedV1, order)
    ensures Shipped(s, order)
  {
    var outbox := s.delivery.db.outbox;
    var e :| e in outbox && TopicOf(outbox[e]) == DeliveryStartedV1 && outbox[e].order == order;
    assert DeliveryEventInv(s.delivery.db.rows, outbox[e]);
  }

  lemma ShippedWasReserved(start: S.Product, s: System, order: nat)
    requires Inv(start, s) && Shipped(s, order)
    ensures Reserved(s, order)
  {
    var i :| 0 <= i < |s.delivery.db.rows| && s.delivery.db.rows[i].order == order;
    var r := s.delivery.db.rows[i];
    assert DeliveryRowInv(s.inventory.db.outbox, r);
    assert TopicOf(s.inventory.db.outbox[r.key.event]) == StockReservedV1;
    ReservedEvent(start, s, order);
  }

  lemma ReservedWasPaid(start: S.Product, s: System, order: nat)
    requires Inv(start, s) && Reserved(s, order)
    ensures Paid(s, order)
  {
    var i :| 0 <= i < |s.inventory.db.reservations| && s.inventory.db.reservations[i].order == order;
    var r := s.inventory.db.reservations[i];
    assert ReservationInv(s.payment.db.outbox, r);
    assert PaymentEventInv(s.orders.db.outbox, s.payment.db.rows, s.payment.db.outbox[r.key.event]);
  }

  lemma RefundedHasFailed(start: S.Product, s: System, order: nat)
    requires Inv(start, s) && Refunded(s, order)
    ensures Has(s.inventory.db.outbox, StockReservationFailedV1, order)
  {
    var rows := s.payment.db.rows;
    var i :| 0 <= i < |rows| && rows[i].order == order && rows[i].status.Refunded?;
    assert PaymentRowInv(s.orders.db.outbox, s.inventory.db.outbox, rows[i]);
  }

  lemma NeverBoth(start: S.Product, s: System, order: nat)
    requires Inv(start, s)
    ensures !(Reserved(s, order) && Has(s.inventory.db.outbox, StockReservationFailedV1, order))
    ensures !(Refunded(s, order) && Shipped(s, order))
  {
    if Has(s.inventory.db.outbox, StockReservationFailedV1, order) {
      FailedOrderHoldsNothing(start, s, order);
    }
    if Refunded(s, order) && Shipped(s, order) {
      RefundedHasFailed(start, s, order);
      ShippedWasReserved(start, s, order);
    }
  }

  /** No order both holds stock and is told that stock failed, so none is both refunded and shipped. */
  lemma {:induction false} NoOrderRefundedAndShipped(start: S.Product, steps: seq<Step>, order: nat)
    requires ValidStart(start)
    ensures var s := Run(Init(start), steps);
      && !(Reserved(s, order) && Has(s.inventory.db.outbox, StockReservationFailedV1, order))
      && !(Refunded(s, order) && Shipped(s, order))
  {
    InvRun(start, steps);
    NeverBoth(start, Run(Init(start), steps), order);
  }

  // ------------------------------------------------ COMPLETED means really done

  lemma PaymentIsSole(start: S.Product, s: System, order: nat)
    requires Inv(start, s) && order < |s.orders.db.rows| && Paid(s, order) && !Refunded(s, order)
    ensures SolePayment(s, order, s.orders.db.rows[order].amount, P.Completed)
  {
    var rows := s.payment.db.rows;
    var i :| 0 <= i < |rows| && rows[i].order == order;
    assert PaymentRowInv(s.orders.db.outbox, s.inventory.db.outbox, rows[i]);
    assert CreatedInv(s.orders.db.rows, s.orders.db.outbox[rows[i].key.event]);
  }

  lemma ReservationIsSole(start: S.Product, s: System, order: nat)
    requires Inv(start, s) && Reserved(s, order)
    ensures SoleReservation(s, order)
  {
    var i :| 0 <= i < |s.inventory.db.reservations| && s.inventory.db.reservations[i].order == order;
    assert ReservationInv(s.payment.db.outbox, s.inventory.db.reservations[i]);
  }

  lemma Done(start: S.Product, s: System, order: nat)
    requires Inv(start, s) && order < |s.orders.db.rows| && Has(s.delivery.db.outbox, DeliveryStartedV1, order)
    ensures SolePayment(s, order, s.orders.db.rows[order].amount, P.Completed)
    ensures SoleReservation(s, order)
    ensures SoleDelivery(s, order)
  {
    ShippedEvent(start, s, order);
    ShippedWasReserved(start, s, order);
    ReservationIsSole(start, s, order);
    ReservedWasPaid(start, s, order);
    NeverBoth(start, s, order);
    PaymentIsSole(start, s, order);
  }

  /** A COMPLETED order has its one payment, of its own amount and not refunded, one reservation and one delivery. */
  lemma {:induction false} CompletedMeansDone(start: S.Product, steps: seq<Step>, order: nat)
    requires ValidStart(start)
    ensures var s := Run(Init(start), steps);
      order < |s.orders.db.rows| && s.orders.db.rows[order].status.Completed? ==>
        && SolePayment(s, order, s.orders.db.rows[order].amount, P.Completed)
        && SoleReservation(s, order)
        && SoleDelivery(s, order)
  {
    var s := Run(Init(start), steps);
    InvRun(start, steps);
    if order < |s.orders.db.rows| && s.orders.db.rows[order].status.Completed? {
      assert Backed(s, order, O.Completed);
      Done(start, s, order);
    }
  }

  lemma ShippingAndFailingExclude(start: S.Product, s: System, order: nat)
    requires Inv(start, s) && Has(s.delivery.db.outbox, DeliveryStartedV1, order)
    ensures !Has(s.inventory.db.outbox, StockReservationFailedV1, order)
  {
    ShippedEvent(start, s, order);
    ShippedWasReserved(start, s, order);
    NeverBoth(start, s, order);
  }

  lemma {:induction false} StatusesShareTheirEvents(start: S.Product, s: System, more: seq<Step>, order: nat)
    requires Inv(start, s)
    requires var t := Run(s, more); order < |s.orders.db.rows| && order < |t.orders.db.rows|
    ensures var t := Run(s, more);
      && Inv(start, t)
      && Backed(t, order, s.orders.db.rows[order].status)
      && Backed(t, order, t.orders.db.rows[order].status)
  {
    InvContinues(start, s, more);
    BackedGrows(s, Run(s, more), order, s.orders.db.rows[order].status);
  }

  /** No run takes an order from COMPLETED to FAILED or from FAILED to COMPLETED, however long it goes on. */
  lemma {:induction false} CompletedAndFailedExclude(start: S.Product, steps: seq<Step>, more: seq<Step>, order: nat)
    requires ValidStart(start)
    ensures var s, t := Run(Init(start), steps), Run(Run(Init(start), steps), more);
      order < |s.orders.db.rows| && order < |t.orders.db.rows| ==>
        && !(s.orders.db.rows[order].status.Completed? && t.orders.db.rows[order].status.Failed?)
        && !(s.orders.db.rows[order].status.Failed? && t.orders.db.rows[order].status.Completed?)
  {
    var s, t := Run(Init(start), steps), Run(Run(Init(start), steps), more);
    InvRun(start, steps);
    if order < |s.orders.db.rows| && order < |t.orders.db.rows| {
      StatusesShareTheirEvents(start, s, more, order);
      if Has(t.delivery.db.outbox, DeliveryStartedV1, order) {
        ShippingAndFailingExclude(start, t, order);
      }
    }
  }

  // ------------------------------------------------ at most one of each, and who gets the stock

  /** One order.created event, payment, reservation and delivery per order at most. */
  lemma {:induction false} AtMostOneOfEach(start: S.Product, steps: seq<Step>)
    requires ValidStart(start)
    ensures var s := Run(Init(start), steps);
      && AtMostOne(s.orders.db.outbox, OrderCreatedV1)
      && AtMostOne(s.payment.db.outbox, PaymentCompletedV1)
      && AtMostOne(s.inventory.db.outbox, StockReservedV1)
      && AtMostOne(s.delivery.db.outbox, DeliveryStartedV1)
      && (forall i, j :: 0 <= i < j < |s.payment.db.rows| ==> s.payment.db.rows[i].order != s.payment.db.rows[j].order)
      && (forall i, j :: 0 <= i < j < |s.inventory.db.reservations| ==>
            s.inventory.db.reservations[i].order != s.inventory.db.reservations[j].order)
      && (forall i, j :: 0 <= i < j < |s.delivery.db.rows| ==>
            s.delivery.db.rows[i].order != s.delivery.db.rows[j].order)
  {
    InvRun(start, steps);
  }

  /** Distinct values that all occur in another list are no more than that list is long. */
  lemma {:induction false} Pigeonhole(xs: seq<nat>, ys: seq<nat>)
    requires forall i, j :: 0 <= i < j < |xs| ==> xs[i] != xs[j]
    requires forall i :: 0 <= i < |xs| ==> xs[i] in ys
    ensures |xs| <= |ys|
    decreases |xs|
  {
    if xs != [] {
      var last := xs[|xs| - 1];
      var k :| 0 <= k < |ys| && ys[k] == last;
      var rest := Without(ys, k);
      forall i | 0 <= i < |xs| - 1
        ensures xs[i] in rest
      {
        var j :| 0 <= j < |ys| && ys[j] == xs[i];
        assert rest[if j < k then j else j - 1] == xs[i];
      }
      Pigeonhole(xs[..|xs| - 1], rest);
    }
  }

  function ShippedOrders(rows: seq<D.Row>): seq<nat> {
    seq(|rows|, i requires 0 <= i < |rows| => rows[i].order)
  }

  function HeldOrders(rows: seq<S.Reservation>): seq<nat> {
    seq(|rows|, i requires 0 <= i < |rows| => rows[i].order)
  }

  lemma ShippedAtMostReserved(start: S.Product, s: System)
    requires Inv(start, s)
    ensures |s.delivery.db.rows| <= |s.inventory.db.reservations|
  {
    var shipped, held := ShippedOrders(s.delivery.db.rows), HeldOrders(s.inventory.db.reservations);
    forall i | 0 <= i < |shipped|
      ensures shipped[i] in held
    {
      assert s.delivery.db.rows[i].order == shipped[i];
      ShippedWasReserved(start, s, shipped[i]);
      ReservedIsHeld(s, shipped[i]);
    }
    Pigeonhole(shipped, held);
  }

  lemma ReservedIsHeld(s: System, order: nat)
    requires Reserved(s, order)
    ensures order in HeldOrders(s.inventory.db.reservations)
  {
    var rows := s.inventory.db.reservations;
    var j :| 0 <= j < |rows| && rows[j].order == order;
    assert HeldOrders(rows)[j] == order;
  }

  /** Deliveries never outnumber reservations, and reservations never outnumber the initial stock. */
  lemma {:induction false} NoOverselling(start: S.Product, steps: seq<Step>)
    requires ValidStart(start) && start.Found?
    ensures var s := Run(Init(start), steps);
      && s.inventory.db.product.Found?
      && var l := s.inventory.db.product.level;
        && |s.delivery.db.rows| <= |s.inventory.db.reservations|
        && |s.inventory.db.reservations| == start.level.available - l.available <= start.level.available
        && l.available + l.reserved == start.level.available + start.level.reserved
        && l.version == start.level.version + |s.inventory.db.reservations|
  {
    InvRun(start, steps);
    ShippedAtMostReserved(start, Run(Init(start), steps));
  }

  /**
   First come, first served: the orders that hold stock are exactly the first min(S0, n) of the n
   distinct orders in the sequence of first outcomes, and all the others were told it failed.
   */
  lemma {:induction false} FirstComeFirstServed(start: S.Product, steps: seq<Step>)
    requires ValidStart(start) && start.Found?
    ensures var s := Run(Init(start), steps);
      && |s.inventory.db.reservations| == Min(start.level.available, |s.attempts|)
      && (forall i, j :: 0 <= i < j < |s.attempts| ==> s.attempts[i] != s.attempts[j])
      && (forall i :: 0 <= i < |s.inventory.db.reservations| ==> s.inventory.db.reservations[i].order == s.attempts[i])
      && (forall i :: |s.inventory.db.reservations| <= i < |s.attempts| ==>
            Has(s.inventory.db.outbox, StockReservationFailedV1, s.attempts[i]))
      && (forall e :: e in s.inventory.db.outbox ==> s.inventory.db.outbox[e].order in s.attempts)
  {
    var s := Run(Init(start), steps);
    InvRun(start, steps);
    forall e | e in s.inventory.db.outbox
      ensures s.inventory.db.outbox[e].order in s.attempts
    {
      var body := s.inventory.db.outbox[e];
      assert StockEventInv(s.payment.db.outbox, s.inventory.db, body);
      if body.StockReserved? {
        assert s.attempts[body.reservation] == body.order;
      }
    }
  }

  /** The stock compensation is dead code in the closed system: no reservation is ever cancelled or restored. */
  lemma {:induction false} RestoreNeverFires(start: S.Product, steps: seq<Step>)
    requires ValidStart(start)
    ensures var s := Run(Init(start), steps);
      && (forall e :: e in s.inventory.db.outbox ==> !s.inventory.db.outbox[e].StockRestored?)
      && (forall i :: 0 <= i < |s.inventory.db.reservations| ==> s.inventory.db.reservations[i].status.Reserved?)
      && (forall i :: 0 <= i < |s.log| && s.log[i].body.PaymentRefunded? ==>
            S.FindReserved(s.inventory.db.reservations, s.log[i].body.order) < 0)
  {
    var s := Run(Init(start), steps);
    InvRun(start, steps);
    forall e | e in s.inventory.db.outbox
      ensures !s.inventory.db.outbox[e].StockRestored?
    {
      assert StockEventInv(s.payment.db.outbox, s.inventory.db, s.inventory.db.outbox[e]);
    }
    forall i | 0 <= i < |s.inventory.db.reservations|
      ensures s.inventory.db.reservations[i].status.Reserved?
    {
      assert ReservationInv(s.payment.db.outbox, s.inventory.db.reservations[i]);
    }
    forall i | 0 <= i < |s.log| && s.log[i].body.PaymentRefunded?
      ensures S.FindReserved(s.inventory.db.reservations, s.log[i].body.order) < 0
    {
      assert Issued(s, s.log[i]);
      RefundedOrderHoldsNothing(start, s, s.log[i]);
    }
  }

  // ------------------------------------------------ rows and events after crashes

  /** An event of the order or payment outbox never lacks its row. */
  ghost predicate EventsHaveRows(s: System) {
    && (forall e :: e in s.orders.db.outbox ==> CreatedInv(s.orders.db.rows, s.orders.db.outbox[e]))
    && (forall e :: e in s.payment.db.outbox ==>
          PaymentEventInv(s.orders.db.outbox, s.payment.db.rows, s.payment.db.outbox[e]))
  }

  /** Exactly one event of the topic for the order. */
  ghost predicate ExactlyOne(outbox: Outbox, topic: Topic, order: nat) {
    exists e :: e in outbox && TopicOf(outbox[e]) == topic && outbox[e].order == order &&
      forall f :: f in outbox && TopicOf(outbox[f]) == topic && outbox[f].order == order ==> f == e
  }

  lemma HasIsExactlyOne(outbox: Outbox, topic: Topic, order: nat)
    requires AtMostOne(outbox, topic)
    ensures Has(outbox, topic, order) <==> ExactlyOne(outbox, topic, order)
  {
  }

  lemma ReservedHasEvent(start: S.Product, s: System, order: nat)
    requires Inv(start, s) && Reserved(s, order)
    ensures Has(s.inventory.db.outbox, StockReservedV1, order)
  {
    var i :| 0 <= i < |s.inventory.db.reservations| && s.inventory.db.reservations[i].order == order;
    assert Has(s.inventory.db.outbox, StockReservedV1, s.inventory.db.reservations[i].order);
  }

  lemma ShippedHasEvent(start: S.Product, s: System, order: nat)
    requires Inv(start, s) && Shipped(s, order)
    ensures Has(s.delivery.db.outbox, DeliveryStartedV1, order)
  {
    var i :| 0 <= i < |s.delivery.db.rows| && s.delivery.db.rows[i].order == order;
    assert Has(s.delivery.db.outbox, DeliveryStartedV1, s.delivery.db.rows[i].order);
  }

  lemma ReservationIffEvent(start: S.Product, s: System, order: nat)
    requires Inv(start, s)
    ensures Reserved(s, order) <==> ExactlyOne(s.inventory.db.outbox, StockReservedV1, order)
  {
    HasIsExactlyOne(s.inventory.db.outbox, StockReservedV1, order);
    if Reserved(s, order) {
      ReservedHasEvent(start, s, order);
    } else if Has(s.inventory.db.outbox, StockReservedV1, order) {
      ReservedEvent(start, s, order);
    }
  }

  lemma DeliveryIffEvent(start: S.Product, s: System, order: nat)
    requires Inv(start, s)
    ensures Shipped(s, order) <==> ExactlyOne(s.delivery.db.outbox, DeliveryStartedV1, order)
  {
    HasIsExactlyOne(s.delivery.db.outbox, DeliveryStartedV1, order);
    if Shipped(s, order) {
      ShippedHasEvent(start, s, order);
    } else if Has(s.delivery.db.outbox, DeliveryStartedV1, order) {
      ShippedEvent(start, s, order);
    }
  }

  /**
   Cutting any handler anywhere: order and payment events imply their rows; a reservation or a
   delivery exists if and only if exactly one matching event does.
   */
  lemma {:induction false} CrashConsistency(start: S.Product, steps: seq<Step>, order: nat)
    requires ValidStart(start)
    ensures var s := Run(Init(start), steps);
      && EventsHaveRows(s)
      && (Reserved(s, order) <==> ExactlyOne(s.inventory.db.outbox, StockReservedV1, order))
      && (Shipped(s, order) <==> ExactlyOne(s.delivery.db.outbox, DeliveryStartedV1, order))
  {
    InvRun(start, steps);
    ReservationIffEvent(start, Run(Init(start), steps), order);
    DeliveryIffEvent(start, Run(Init(start), steps), order);
  }

  /** A concrete order that will never be paid for: its row is there, its event is lost. */
  lemma OrderWithoutEvent(start: S.Product)
    ensures var s := Run(Init(start), [Create(O.Command(5, 1, "k"), false, AtOutbox)]);
      |s.orders.db.rows| == 1 && s.orders.db.outbox == map[]
  {
    var step := Create(O.Command(5, 1, "k"), false, AtOutbox);
    assert [step][..0] == [];
    assert Run(Init(start), [step]) == Apply(Run(Init(start), []), step);
  }
}

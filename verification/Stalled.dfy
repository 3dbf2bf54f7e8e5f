/**
 A concrete fault-free run that comes to rest with its only order paid, reserved and delivered, but never
 COMPLETED: the order service heard of the reservation before it heard of the payment.
 */
module Stalled {
  import opened Events
  import opened Idempotency
  import opened Saga
  import opened Guarantees
  import opened Settlement
  import O = Orders
  import P = Payments
  import S = Stock

  const UP := Redis(false, false)
  const ONE_UNIT := S.Found(S.Level(1, 0, 0))

  const CREATED := Message(0, OrderCreated(0, 5, 1))
  const PAID := Message(1, PaymentCompleted(0, 0, 5))
  const RESERVED := Message(2, StockReserved(0, 0, 1))

  const ORDERS := Node(O.Db([O.Row(5, 1, O.Pending, 0, "k")], map[0 := CREATED.body]), {})
  const PAYMENT := Node(P.Db([P.Row(0, 5, P.Completed, Key(0, 0))], map[1 := PAID.body], [P.Charge(0, 5)]), {0})
  const INVENTORY := Node(S.Db(S.Found(S.Level(0, 1, 1)), [S.Reservation(0, 1, S.Reserved, Key(0, 1))],
                               map[2 := RESERVED.body]), {1})

  const PLACED := Clean(Init(ONE_UNIT).(orders := ORDERS, next := 1), {}, {})
  const ANNOUNCED := PLACED.(s := PLACED.s.(log := [CREATED]))
  const CHARGED := Clean(ANNOUNCED.s.(payment := PAYMENT, next := 2), {(PaymentParty, CREATED)}, {})
  const CHARGE_KNOWN := CHARGED.(s := CHARGED.s.(log := [CREATED, PAID]))
  const TAKEN := Clean(CHARGE_KNOWN.s.(inventory := INVENTORY, attempts := [0], next := 3),
                       {(PaymentParty, CREATED), (InventoryParty, PAID)}, {})
  const TAKING_KNOWN := TAKEN.(s := TAKEN.s.(log := [CREATED, PAID, RESERVED]))

  const PLACE := Place(O.Command(5, 1, "k"))
  const EARLY := Give(OrderParty, 2, UP, true)

  const RUN := [PLACE, Send(OrderParty, 0), Give(PaymentParty, 0, UP, true), Send(PaymentParty, 1),
                Give(InventoryParty, 1, UP, true), Send(InventoryParty, 2)]

  /** The run is fair and leads there. */
  ghost predicate LeadsTo(acts: seq<Act>, c: Clean) {
    Fair(ONE_UNIT, acts) && Play(Begin(ONE_UNIT), acts) == c
  }

  lemma {:induction false} Extend(acts: seq<Act>, c: Clean, act: Act, longer: seq<Act>)
    requires LeadsTo(acts, c) && Enabled(c, act) && longer == acts + [act]
    ensures LeadsTo(longer, Do(c, act))
  {
    assert longer[..|acts|] == acts;
  }

  lemma OrderPlaced()
    ensures Do(Begin(ONE_UNIT), PLACE) == PLACED
  {
    var s := Apply(Init(ONE_UNIT), Create(PLACE.cmd, false, NoFault));
    assert s.orders.db.rows == ORDERS.db.rows && s.orders.db.outbox == ORDERS.db.outbox;
  }

  lemma OrderCharged()
    ensures Do(ANNOUNCED, RUN[2]) == CHARGED
  {
    var s := Apply(ANNOUNCED.s, ToPayment(0, UP, P.World(true, false, NoFault)));
    assert s.payment.db.rows == PAYMENT.db.rows && s.payment.db.outbox == PAYMENT.db.outbox;
    assert s.payment.db.ledger == PAYMENT.db.ledger && s.payment.done == PAYMENT.done;
  }

  lemma UnitTaken()
    ensures Do(CHARGE_KNOWN, RUN[4]) == TAKEN
  {
    var s := Apply(CHARGE_KNOWN.s, ToInventory(1, UP, NoFault));
    assert s.inventory.db.reservations == INVENTORY.db.reservations && s.inventory.db.outbox == INVENTORY.db.outbox;
    assert s.inventory.db.product == INVENTORY.db.product && s.inventory.done == INVENTORY.done;
    assert s.attempts == [0];
    assert CHARGE_KNOWN.handled + {(InventoryParty, PAID)} == TAKEN.handled;
  }

  lemma Published()
    ensures Enabled(PLACED, RUN[1]) && Do(PLACED, RUN[1]) == ANNOUNCED
    ensures Enabled(CHARGED, RUN[3]) && Do(CHARGED, RUN[3]) == CHARGE_KNOWN
    ensures Enabled(TAKEN, RUN[5]) && Do(TAKEN, RUN[5]) == TAKING_KNOWN
  {
    assert [] + [CREATED] == [CREATED] && [CREATED] + [PAID] == [CREATED, PAID];
    assert [CREATED, PAID] + [RESERVED] == [CREATED, PAID, RESERVED];
  }

  lemma {:induction false} RunLeads()
    ensures LeadsTo(RUN, TAKING_KNOWN)
  {
    OrderPlaced();
    OrderCharged();
    UnitTaken();
    Published();
    Extend([], Begin(ONE_UNIT), RUN[0], RUN[..1]);
    Extend(RUN[..1], PLACED, RUN[1], RUN[..2]);
    Extend(RUN[..2], ANNOUNCED, RUN[2], RUN[..3]);
    Extend(RUN[..3], CHARGED, RUN[3], RUN[..4]);
    Extend(RUN[..4], CHARGE_KNOWN, RUN[4], RUN[..5]);
    Extend(RUN[..5], TAKEN, RUN[5], RUN);
  }

  /** The order service has heard nothing yet, so the reservation comes too early. */
  lemma HeardEarly()
    ensures Enabled(TAKING_KNOWN, EARLY)
    ensures var c := Do(TAKING_KNOWN, EARLY); |c.s.orders.db.rows| == 1 && !InTime(c, 0)
  {
    var c := Do(TAKING_KNOWN, EARLY);
    HandKeepsTables(TAKING_KNOWN.s, OrderParty, 2, UP, true);
    assert PaymentCompletedV1 in Prior(RESERVED.body) && !Heard({}, PaymentCompletedV1, 0);
    assert (OrderParty, RESERVED) in c.handled && RESERVED !in c.timely;
  }

  /** A fault-free run at rest: payment, reservation and delivery are there, the order is not COMPLETED. */
  lemma {:induction false} OrderStalls() returns (acts: seq<Act>)
    ensures AtRest(ONE_UNIT, acts)
    ensures var s := Play(Begin(ONE_UNIT), acts).s;
      AllOrNothing(s, 0) && SoleDelivery(s, 0) && !O.Terminal(s.orders.db.rows[0].status)
  {
    RunLeads();
    HeardEarly();
    var part := RUN + [EARLY];
    Extend(RUN, TAKING_KNOWN, EARLY, part);
    WorkIsBounded(ONE_UNIT, part);
    var more := RestIsReached(ONE_UNIT, part, Measure(Play(Begin(ONE_UNIT), part)));
    acts := part + more;
    EarlyIsForever(ONE_UNIT, part, more, 0);
    EveryOrderSettles(ONE_UNIT, acts, 0);
  }
}

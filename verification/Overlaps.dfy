/** Concrete runs in which overlapping deliveries of one event, or overlapping refunds, do harm. */
module Overlaps {
  import opened Events
  import opened Interleaving
  import S = Stock

  lemma {:induction false} Run2(mode: Mode, s: State, steps: seq<Step>, a: Step, b: Step)
    ensures Run(mode, s, steps + [a, b]) == Apply(mode, Apply(mode, Run(mode, s, steps), a), b)
  {
    assert (steps + [a, b])[..|steps| + 1] == steps + [a];
    assert (steps + [a])[..|steps|] == steps;
  }

  const K := Key(0, 0)
  const ONE := S.Level(1, 0, 0)

  /** The one unit is reserved, and its event committed as number 1. */
  const TAKEN := S.ReserveFrom(Init(ONE).db, ONE, K, 1)

  const BEGUN := [BeginReserve(1, K), BeginReserve(2, K)]

  /** Two overlapping deliveries of one payment.completed, with the lock on and one unit in stock. */
  const TWICE := BEGUN + [ReadRow(1), Finish(1, 1)] + [ReadRow(2), Finish(2, 2)]

  const OVERLAPPING := Mode(true, true, false)

  const BOTH_BEGUN := State(Init(ONE).db, map[1 := ReserveTx(K, Unread), 2 := ReserveTx(K, Unread)], Free, [], [])

  lemma BothBegin()
    ensures Apply(OVERLAPPING, Apply(OVERLAPPING, Init(ONE), BeginReserve(1, K)), BeginReserve(2, K)) == BOTH_BEGUN
  {
    var s1 := Apply(OVERLAPPING, Init(ONE), BeginReserve(1, K));
    assert s1.txs == map[1 := ReserveTx(K, Unread)];
    assert Apply(OVERLAPPING, s1, BeginReserve(2, K)).txs == BOTH_BEGUN.txs;
  }

  const FIRST_READ := BOTH_BEGUN.(txs := map[1 := ReserveTx(K, Seen(ONE)), 2 := ReserveTx(K, Unread)],
                                  lock := HeldBy(1))
  const FIRST_DONE := State(TAKEN, map[2 := ReserveTx(K, Unread)], Free, [Took(K, 1)], [Reserve(K, 1)])

  lemma FirstReads()
    ensures Apply(OVERLAPPING, BOTH_BEGUN, ReadRow(1)) == FIRST_READ
  {
    assert Apply(OVERLAPPING, BOTH_BEGUN, ReadRow(1)).txs == FIRST_READ.txs;
  }

  /** One of two transactions is gone. */
  lemma OtherRemains(a: TxId, b: TxId, x: Tx, y: Tx)
    requires a != b
    ensures map[a := x, b := y] - {a} == map[b := y]
  {
  }

  lemma Finished(mode: Mode, s: State, a: TxId, b: TxId, x: Tx, y: Tx, uuid: EventId)
    requires a != b && s.txs == map[a := x, b := y] && s.lock == HeldBy(a) && s.db.product.Found? && x.snapshot.Seen?
    ensures Apply(mode, s, Finish(a, uuid)) ==
            State(Conclude(s.db, x, uuid).0, map[b := y], Free, s.commits + Conclude(s.db, x, uuid).1,
                  s.served + [RequestOf(x, uuid)])
  {
    OtherRemains(a, b, x, y);
  }

  lemma UnitTaken()
    ensures Conclude(Init(ONE).db, ReserveTx(K, Seen(ONE)), 1) == (TAKEN, [Took(K, 1)])
  {
    assert !S.HasKey([], K);
  }

  lemma FirstTakes()
    ensures Apply(OVERLAPPING, FIRST_READ, Finish(1, 1)) == FIRST_DONE
  {
    Finished(OVERLAPPING, FIRST_READ, 1, 2, ReserveTx(K, Seen(ONE)), ReserveTx(K, Unread), 1);
    UnitTaken();
  }

  lemma SecondFails()
    ensures Apply(OVERLAPPING, Apply(OVERLAPPING, FIRST_DONE, ReadRow(2)), Finish(2, 2)).db.outbox ==
            TAKEN.outbox[2 := StockReservationFailed(0, InsufficientStock)]
  {
  }

  /** The order gets its reservation and is told that it has none: serial handling of an event is needed. */
  lemma OverlappingEventsContradict()
    ensures var s := Run(OVERLAPPING, Init(ONE), TWICE);
      && 1 in s.db.outbox && s.db.outbox[1] == StockReserved(0, 0, 1)
      && 2 in s.db.outbox && s.db.outbox[2] == StockReservationFailed(0, InsufficientStock)
  {
    var taken := BEGUN + [ReadRow(1), Finish(1, 1)];
    Run2(OVERLAPPING, Init(ONE), [], BeginReserve(1, K), BeginReserve(2, K));
    assert [] + BEGUN == BEGUN;
    BothBegin();
    Run2(OVERLAPPING, Init(ONE), BEGUN, ReadRow(1), Finish(1, 1));
    FirstReads();
    FirstTakes();
    Run2(OVERLAPPING, Init(ONE), taken, ReadRow(2), Finish(2, 2));
    SecondFails();
  }

  /** Two refunds of one reservation: both look it up before either writes. */
  const REFUNDS := [BeginReserve(1, K), ReadRow(1)] + [Finish(1, 1), BeginRestore(2, 0)] +
                   [BeginRestore(3, 0), ReadRow(2)] + [Finish(2, 2), ReadRow(3)] + [Finish(3, 3), Abort(1)]

  const OVERLAP := Mode(true, false, true)

  const ABOUT_TO_TAKE := State(Init(ONE).db, map[1 := ReserveTx(K, Seen(ONE))], HeldBy(1), [], [])
  const ONE_REFUND := State(TAKEN, map[2 := RestoreTx(0, 0, Unread)], Free, [Took(K, 1)], [Reserve(K, 1)])
  const READ_BY_ONE := map[2 := RestoreTx(0, 0, Seen(S.Level(0, 1, 1))), 3 := RestoreTx(0, 0, Unread)]
  const TWO_REFUNDS := ONE_REFUND.(txs := READ_BY_ONE, lock := HeldBy(2))

  lemma AboutToTake()
    ensures Apply(OVERLAP, Apply(OVERLAP, Init(ONE), BeginReserve(1, K)), ReadRow(1)) == ABOUT_TO_TAKE
  {
    var s1 := Apply(OVERLAP, Init(ONE), BeginReserve(1, K));
    assert s1.txs == map[1 := ReserveTx(K, Unread)];
    assert Apply(OVERLAP, s1, ReadRow(1)).txs == ABOUT_TO_TAKE.txs;
  }

  lemma OneRefund()
    ensures Apply(OVERLAP, Apply(OVERLAP, ABOUT_TO_TAKE, Finish(1, 1)), BeginRestore(2, 0)) == ONE_REFUND
  {
    var s1 := Apply(OVERLAP, ABOUT_TO_TAKE, Finish(1, 1));
    assert s1.db.reservations == TAKEN.reservations;
    assert s1 == State(TAKEN, map[], Free, [Took(K, 1)], [Reserve(K, 1)]);
    assert S.FindReserved(TAKEN.reservations, 0) == 0;
    assert Apply(OVERLAP, s1, BeginRestore(2, 0)).txs == ONE_REFUND.txs;
  }

  lemma TwoRefunds()
    ensures Apply(OVERLAP, Apply(OVERLAP, ONE_REFUND, BeginRestore(3, 0)), ReadRow(2)) == TWO_REFUNDS
  {
    assert S.FindReserved(TAKEN.reservations, 0) == 0;
    var s1 := Apply(OVERLAP, ONE_REFUND, BeginRestore(3, 0));
    assert s1.txs == map[2 := RestoreTx(0, 0, Unread), 3 := RestoreTx(0, 0, Unread)];
    assert Apply(OVERLAP, s1, ReadRow(2)).txs == TWO_REFUNDS.txs;
  }

  lemma UnitGiven()
    ensures var db := Conclude(TAKEN, RestoreTx(0, 0, Seen(S.Level(0, 1, 1))), 2).0;
      db.product == S.Found(S.Level(1, 0, 2)) && |db.reservations| == 1 && db.reservations[0].quantity == 1
  {
  }

  lemma FirstRefundCommits(s: State)
    requires s == Apply(OVERLAP, TWO_REFUNDS, Finish(2, 2))
    ensures s.db.product == S.Found(S.Level(1, 0, 2)) && |s.db.reservations| == 1 && s.db.reservations[0].quantity == 1
    ensures s.txs == map[3 := RestoreTx(0, 0, Unread)] && s.lock == Free
  {
    Finished(OVERLAP, TWO_REFUNDS, 2, 3, RestoreTx(0, 0, Seen(S.Level(0, 1, 1))), RestoreTx(0, 0, Unread), 2);
    UnitGiven();
  }

  lemma SecondRefundReads(s: State)
    requires s.db.product == S.Found(S.Level(1, 0, 2))
    requires s.txs == map[3 := RestoreTx(0, 0, Unread)] && s.lock == Free
    ensures Apply(OVERLAP, s, ReadRow(3)).db == s.db
    ensures Apply(OVERLAP, s, ReadRow(3)).txs == map[3 := RestoreTx(0, 0, Seen(S.Level(1, 0, 2)))]
  {
  }

  lemma FirstRefund(s: State)
    requires s == Apply(OVERLAP, Apply(OVERLAP, TWO_REFUNDS, Finish(2, 2)), ReadRow(3))
    ensures s.db.product == S.Found(S.Level(1, 0, 2)) && |s.db.reservations| == 1 && s.db.reservations[0].quantity == 1
    ensures s.txs == map[3 := RestoreTx(0, 0, Seen(S.Level(1, 0, 2)))]
  {
    var s1 := Apply(OVERLAP, TWO_REFUNDS, Finish(2, 2));
    FirstRefundCommits(s1);
    SecondRefundReads(s1);
  }

  /** The unit is given back twice: one unit in the beginning, two in the end, minus one reserved. */
  lemma OverlappingRefundsRestoreTwice()
    ensures Run(OVERLAP, Init(ONE), REFUNDS).db.product == S.Found(S.Level(2, -1, 3))
  {
    var a := [BeginReserve(1, K), ReadRow(1)];
    var b := a + [Finish(1, 1), BeginRestore(2, 0)];
    var c := b + [BeginRestore(3, 0), ReadRow(2)];
    var d := c + [Finish(2, 2), ReadRow(3)];
    assert [] + a == a;
    Run2(OVERLAP, Init(ONE), [], BeginReserve(1, K), ReadRow(1));
    AboutToTake();
    Run2(OVERLAP, Init(ONE), a, Finish(1, 1), BeginRestore(2, 0));
    OneRefund();
    Run2(OVERLAP, Init(ONE), b, BeginRestore(3, 0), ReadRow(2));
    TwoRefunds();
    Run2(OVERLAP, Init(ONE), c, Finish(2, 2), ReadRow(3));
    FirstRefund(Run(OVERLAP, Init(ONE), d));
    Run2(OVERLAP, Init(ONE), d, Finish(3, 3), Abort(1));
    LastRefund(Run(OVERLAP, Init(ONE), d));
  }

  lemma LastRefund(s: State)
    requires s.db.product == S.Found(S.Level(1, 0, 2)) && |s.db.reservations| == 1 && s.db.reservations[0].quantity == 1
    requires s.txs == map[3 := RestoreTx(0, 0, Seen(S.Level(1, 0, 2)))]
    ensures Apply(OVERLAP, Apply(OVERLAP, s, Finish(3, 3)), Abort(1)).db.product == S.Found(S.Level(2, -1, 3))
  {
  }
}

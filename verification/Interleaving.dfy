/**
 The inventory handlers cut into lookup, read of the product row, and compare-and-set commit, with any
 number of transactions in flight, with or without the row lock.
 */
module Interleaving {
  import opened Events
  import S = Stock

  type TxId = nat

  datatype Snapshot = Unread | Seen(level: S.Level)

  /** A transaction after its lookup (made outside the transaction) and perhaps its read of the row. */
  datatype Tx =
    | ReserveTx(key: Key, snapshot: Snapshot)
    | RestoreTx(order: nat, row: nat, snapshot: Snapshot)

  datatype Holder = Free | HeldBy(tx: TxId)

  /** FOR UPDATE in force; duplicate deliveries of one event may overlap; refunds may overlap. */
  datatype Mode = Mode(locking: bool, overlappingEvents: bool, overlappingRefunds: bool)

  /** What a finished transaction did, in commit order. */
  datatype Commit = Took(key: Key, uuid: EventId) | Gave(row: nat, uuid: EventId) |
                    Failed(order: nat, reason: StockFailure, uuid: EventId)

  /** What a finished transaction was asked to do. */
  datatype Request = Reserve(key: Key, uuid: EventId) | Restore(order: nat, uuid: EventId)

  datatype State = State(db: S.Db, txs: map<TxId, Tx>, lock: Holder, commits: seq<Commit>, served: seq<Request>)

  datatype Step =
    | BeginReserve(tx: TxId, key: Key)
    | BeginRestore(tx: TxId, order: nat)
    | ReadRow(tx: TxId)
    | Finish(tx: TxId, uuid: EventId)
    | Abort(tx: TxId)

  function Init(level: S.Level): State {
    State(S.Db(S.Found(level), [], map[]), map[], Free, [], [])
  }

  ghost predicate KeyInFlight(txs: map<TxId, Tx>, key: Key) {
    exists t :: t in txs && txs[t].ReserveTx? && txs[t].key == key
  }

  ghost predicate RefundInFlight(txs: map<TxId, Tx>) {
    exists t :: t in txs && txs[t].RestoreTx?
  }

  /** How a transaction ends: the versioned update, then the other statements, in one commit. */
  function Conclude(db: S.Db, tx: Tx, uuid: EventId): (S.Db, seq<Commit>)
    requires db.product.Found? && tx.snapshot.Seen?
  {
    var read := tx.snapshot.level;
    match tx
    case ReserveTx(key, _) =>
      if read.available < S.UNIT then
        (S.PublishFailed(db, key.order, InsufficientStock, uuid, NoFault).db,
         [Failed(key.order, InsufficientStock, uuid)])
      else if db.product.level.version != read.version then
        (S.PublishFailed(db, key.order, VersionConflict, uuid, NoFault).db, [Failed(key.order, VersionConflict, uuid)])
      else if S.HasKey(db.reservations, key) then (db, [])
      else (S.ReserveFrom(db, read, key, uuid), [Took(key, uuid)])
    case RestoreTx(_, row, _) =>
      if db.product.level.version != read.version || row >= |db.reservations| then (db, [])
      else (S.RestoreFrom(db, read, row, uuid), [Gave(row, uuid)])
  }

  function RequestOf(tx: Tx, uuid: EventId): Request {
    match tx
    case ReserveTx(key, _) => Reserve(key, uuid)
    case RestoreTx(order, _, _) => Restore(order, uuid)
  }

  function Released(lock: Holder, tx: TxId): Holder {
    if lock == HeldBy(tx) then Free else lock
  }

  ghost function Apply(mode: Mode, s: State, step: Step): State {
    match step
    case BeginReserve(tx, key) =>
      if tx in s.txs || S.HasKey(s.db.reservations, key) || (!mode.overlappingEvents && KeyInFlight(s.txs, key)) then s
      else s.(txs := s.txs[tx := ReserveTx(key, Unread)])
    case BeginRestore(tx, order) =>
      var row := S.FindReserved(s.db.reservations, order);
      if tx in s.txs || row < 0 || (!mode.overlappingRefunds && RefundInFlight(s.txs)) then s
      else s.(txs := s.txs[tx := RestoreTx(order, row, Unread)])
    case ReadRow(tx) =>
      if tx !in s.txs || s.txs[tx].snapshot.Seen? || s.db.product.Missing? || (mode.locking && s.lock != Free) then s
      else s.(txs := s.txs[tx := s.txs[tx].(snapshot := Seen(s.db.product.level))],
              lock := if mode.locking then HeldBy(tx) else s.lock)
    case Finish(tx, uuid) =>
      if tx !in s.txs || s.txs[tx].snapshot.Unread? || s.db.product.Missing? then s
      else
        var (db, commits) := Conclude(s.db, s.txs[tx], uuid);
        State(db, s.txs - {tx}, Released(s.lock, tx), s.commits + commits, s.served + [RequestOf(s.txs[tx], uuid)])
    case Abort(tx) => s.(txs := s.txs - {tx}, lock := Released(s.lock, tx))
  }

  ghost function Run(mode: Mode, s: State, steps: seq<Step>): State
    decreases |steps|
  {
    if steps == [] then s else Apply(mode, Run(mode, s, steps[..|steps| - 1]), steps[|steps| - 1])
  }

  // ------------------------------------------------ what can happen

  /** Transactions begin whatever else is open, and read as soon as the lock allows. */
  lemma TransactionsAreFree(mode: Mode, s: State, tx: TxId, key: Key, order: nat, row: nat)
    requires s.db.product.Found?
    ensures tx !in s.txs && !S.HasKey(s.db.reservations, key) &&
            (mode.overlappingEvents || !KeyInFlight(s.txs, key)) ==>
              Apply(mode, s, BeginReserve(tx, key)) == s.(txs := s.txs[tx := ReserveTx(key, Unread)])
    ensures tx !in s.txs && S.FirstReserved(s.db.reservations, order, row) &&
            (mode.overlappingRefunds || !RefundInFlight(s.txs)) ==>
              Apply(mode, s, BeginRestore(tx, order)) == s.(txs := s.txs[tx := RestoreTx(order, row, Unread)])
    ensures tx in s.txs && s.txs[tx].snapshot.Unread? && (mode.locking ==> s.lock.Free?) ==>
              var s' := Apply(mode, s, ReadRow(tx));
              && s'.txs == s.txs[tx := s.txs[tx].(snapshot := Seen(s.db.product.level))] && s'.db == s.db
              && (mode.locking ==> s'.lock == HeldBy(tx))
  {
  }

  /** Finishing or aborting ends a transaction and gives its lock back; only finishing touches the database. */
  lemma TransactionsEnd(mode: Mode, s: State, tx: TxId, uuid: EventId)
    requires tx in s.txs && s.txs[tx].snapshot.Seen? && s.db.product.Found?
    ensures var s' := Apply(mode, s, Finish(tx, uuid)); s'.txs == s.txs - {tx} && s'.lock != HeldBy(tx)
    ensures var s' := Apply(mode, s, Abort(tx)); s'.db == s.db && s'.txs == s.txs - {tx} && s'.lock != HeldBy(tx)
  {
  }

  /** The version check alone: a row that moved since the read yields a "version conflict" event and nothing else. */
  lemma ConflictMeans(db: S.Db, key: Key, read: S.Level, uuid: EventId)
    requires db.product.Found? && read.available >= 1 && read.version != db.product.level.version
    ensures Conclude(db, ReserveTx(key, Seen(read)), uuid) ==
            (S.Db(db.product, db.reservations, db.outbox[uuid := StockReservationFailed(key.order, VersionConflict)]),
             [Failed(key.order, VersionConflict, uuid)])
  {
  }

  // ------------------------------------------------ serial meaning of a history

  /** Units held by RESERVED reservations. */
  function Held(rows: seq<S.Reservation>): int {
    if rows == [] then 0
    else
      var last := rows[|rows| - 1];
      Held(rows[..|rows| - 1]) + if last.status.Reserved? then last.quantity else 0
  }

  /** One commit, on the row as it is at that moment: as if nobody ever read anything older. */
  function ReplayOne(db: S.Db, c: Commit): S.Db {
    if db.product.Missing? then db
    else
      match c
      case Took(key, uuid) => S.ReserveFrom(db, db.product.level, key, uuid)
      case Gave(row, uuid) => if row < |db.reservations| then S.RestoreFrom(db, db.product.level, row, uuid) else db
      case Failed(order, reason, uuid) => S.PublishFailed(db, order, reason, uuid, NoFault).db
  }

  function Replay(db: S.Db, commits: seq<Commit>): S.Db
    decreases |commits|
  {
    if commits == [] then db else ReplayOne(Replay(db, commits[..|commits| - 1]), commits[|commits| - 1])
  }

  /** Commits that moved the product row. */
  function Moves(commits: seq<Commit>): nat {
    if commits == [] then 0
    else Moves(commits[..|commits| - 1]) + if commits[|commits| - 1].Failed? then 0 else 1
  }

  /** A request served by the whole handler, running alone. */
  function ServeOne(db: S.Db, r: Request): S.Db {
    match r
    case Reserve(key, uuid) => S.OnPaymentCompleted(db, key.event, key.order, uuid, NoFault).db
    case Restore(order, uuid) => S.OnPaymentRefunded(db, order, uuid, NoFault).db
  }

  function Serve(db: S.Db, served: seq<Request>): S.Db
    decreases |served|
  {
    if served == [] then db else ServeOne(Serve(db, served[..|served| - 1]), served[|served| - 1])
  }

  lemma ReplayNext(db: S.Db, commits: seq<Commit>, c: Commit)
    ensures Replay(db, commits + [c]) == ReplayOne(Replay(db, commits), c)
    ensures Moves(commits + [c]) == Moves(commits) + if c.Failed? then 0 else 1
  {
    assert (commits + [c])[..|commits|] == commits;
  }

  lemma ServeNext(db: S.Db, served: seq<Request>, r: Request)
    ensures Serve(db, served + [r]) == ServeOne(Serve(db, served), r)
  {
    assert (served + [r])[..|served|] == served;
  }

  lemma HeldAppend(rows: seq<S.Reservation>, row: S.Reservation)
    ensures Held(rows + [row]) == Held(rows) + if row.status.Reserved? then row.quantity else 0
  {
    assert (rows + [row])[..|rows|] == rows;
  }

  lemma {:induction false} HeldCancel(rows: seq<S.Reservation>, i: nat)
    requires i < |rows|
    ensures Held(rows[i := rows[i].(status := S.Cancelled)]) ==
            Held(rows) - if rows[i].status.Reserved? then rows[i].quantity else 0
  {
    var rows' := rows[i := rows[i].(status := S.Cancelled)];
    var n := |rows| - 1;
    if i == n {
      assert rows'[..n] == rows[..n];
    } else {
      assert rows'[..n] == rows[..n][i := rows[i].(status := S.Cancelled)];
      HeldCancel(rows[..n], i);
    }
  }

  // ------------------------------------------------ the version check alone

  /** A snapshot at the current version is the current row. */
  ghost predicate SnapshotInv(db: S.Db, tx: Tx) {
    tx.snapshot.Seen? && db.product.Found? ==>
      && tx.snapshot.level.version <= db.product.level.version
      && (tx.snapshot.level.version == db.product.level.version ==> tx.snapshot.level == db.product.level)
  }

  ghost predicate TxInv(db: S.Db, tx: Tx) {
    SnapshotInv(db, tx) && (tx.RestoreTx? ==> tx.row < |db.reservations|)
  }

  ghost predicate SerialInv(start: S.Level, s: State) {
    && s.db.product.Found?
    && (forall t :: t in s.txs ==> TxInv(s.db, s.txs[t]))
    && s.db == Replay(Init(start).db, s.commits)
    && s.db.product.level.version == start.version + Moves(s.commits)
  }

  lemma ConcludeReplays(start: S.Level, s: State, t: TxId, uuid: EventId)
    requires SerialInv(start, s) && t in s.txs && s.txs[t].snapshot.Seen?
    ensures var (db, commits) := Conclude(s.db, s.txs[t], uuid);
      && db.product.Found?
      && db == Replay(Init(start).db, s.commits + commits)
      && db.product.level.version == start.version + Moves(s.commits + commits)
  {
    var (db, commits) := Conclude(s.db, s.txs[t], uuid);
    assert TxInv(s.db, s.txs[t]);
    if commits == [] {
      assert s.commits + commits == s.commits;
    } else {
      ReplayNext(Init(start).db, s.commits, commits[0]);
    }
  }

  lemma OthersSurvive(s: State, t: TxId, uuid: EventId, tx: Tx)
    requires s.db.product.Found? && TxInv(s.db, tx) && t in s.txs && s.txs[t].snapshot.Seen? && TxInv(s.db, s.txs[t])
    ensures TxInv(Conclude(s.db, s.txs[t], uuid).0, tx)
  {
  }

  lemma SerialStep(mode: Mode, start: S.Level, s: State, step: Step)
    requires SerialInv(start, s)
    ensures SerialInv(start, Apply(mode, s, step))
  {
    if step.Finish? && step.tx in s.txs && s.txs[step.tx].snapshot.Seen? {
      ConcludeReplays(start, s, step.tx, step.uuid);
      var s' := Apply(mode, s, step);
      forall u | u in s'.txs
        ensures TxInv(s'.db, s'.txs[u])
      {
        OthersSurvive(s, step.tx, step.uuid, s.txs[u]);
      }
    }
  }

  lemma {:induction false} SerialRun(mode: Mode, start: S.Level, steps: seq<Step>)
    ensures SerialInv(start, Run(mode, Init(start), steps))
    decreases |steps|
  {
    if steps != [] {
      SerialRun(mode, start, steps[..|steps| - 1]);
      SerialStep(mode, start, Run(mode, Init(start), steps[..|steps| - 1]), steps[|steps| - 1]);
    }
  }

  // ------------------------------------------------ conservation

  /** The quantities agree with the reservations, and nothing was lost or made up. */
  ghost predicate Conserved(start: S.Level, db: S.Db) {
    && db.product.Found?
    && db.product.level.available >= 0
    && db.product.level.available + db.product.level.reserved == start.available + start.reserved
    && db.product.level.reserved == start.reserved + Held(db.reservations)
    && forall i :: 0 <= i < |db.reservations| ==> db.reservations[i].quantity == S.UNIT
  }

  /** A winning reservation writes what the row at that moment gives, and keeps the arithmetic. */
  lemma TakeConserves(start: S.Level, db: S.Db, key: Key, uuid: EventId)
    requires Conserved(start, db) && db.product.level.available >= S.UNIT
    ensures Conserved(start, S.ReserveFrom(db, db.product.level, key, uuid))
  {
    HeldAppend(db.reservations, S.Reservation(key.order, S.UNIT, S.Reserved, key));
  }

  /** Giving a reservation back keeps the arithmetic exactly when it is still RESERVED at the commit. */
  lemma GiveConservesIff(start: S.Level, db: S.Db, row: nat, uuid: EventId)
    requires Conserved(start, db) && row < |db.reservations|
    ensures Conserved(start, S.RestoreFrom(db, db.product.level, row, uuid)) <==> db.reservations[row].status.Reserved?
  {
    HeldCancel(db.reservations, row);
  }

  /** A restore whose version check still matches finishes on a reservation that was given back before. */
  ghost predicate GivesTwice(s: State, step: Step) {
    && step.Finish? && step.tx in s.txs && s.txs[step.tx].RestoreTx? && s.txs[step.tx].snapshot.Seen?
    && s.db.product.Found? && s.txs[step.tx].snapshot.level.version == s.db.product.level.version
    && s.txs[step.tx].row < |s.db.reservations| && !s.db.reservations[s.txs[step.tx].row].status.Reserved?
  }

  lemma ConcludeConservesIff(start: S.Level, db: S.Db, tx: Tx, uuid: EventId)
    requires Conserved(start, db) && TxInv(db, tx) && tx.snapshot.Seen?
    ensures Conserved(start, Conclude(db, tx, uuid).0) <==>
            !(tx.RestoreTx? && tx.snapshot.level.version == db.product.level.version &&
              !db.reservations[tx.row].status.Reserved?)
  {
    if tx.snapshot.level.version == db.product.level.version {
      match tx {
        case ReserveTx(key, _) =>
          if db.product.level.available >= S.UNIT {
            TakeConserves(start, db, key, uuid);
          }
        case RestoreTx(_, row, _) => GiveConservesIff(start, db, row, uuid);
      }
    }
  }

  lemma ConservedStepIff(mode: Mode, start: S.Level, s: State, step: Step)
    requires SerialInv(start, s) && Conserved(start, s.db)
    ensures Conserved(start, Apply(mode, s, step).db) <==> !GivesTwice(s, step)
  {
    if step.Finish? && step.tx in s.txs && s.txs[step.tx].snapshot.Seen? {
      ConcludeConservesIff(start, s.db, s.txs[step.tx], step.uuid);
    }
  }

  ghost predicate AlwaysConserved(mode: Mode, start: S.Level, steps: seq<Step>) {
    forall k :: 0 <= k <= |steps| ==> Conserved(start, Run(mode, Init(start), steps[..k]).db)
  }

  ghost predicate NeverGivesTwice(mode: Mode, start: S.Level, steps: seq<Step>) {
    forall k :: 0 <= k < |steps| ==> !GivesTwice(Run(mode, Init(start), steps[..k]), steps[k])
  }

  lemma {:induction false} RunNext(mode: Mode, s: State, steps: seq<Step>, k: nat)
    requires k < |steps|
    ensures Run(mode, s, steps[..k + 1]) == Apply(mode, Run(mode, s, steps[..k]), steps[k])
  {
    assert steps[..k + 1][..k] == steps[..k];
  }

  lemma {:induction false} ConservedNext(mode: Mode, start: S.Level, steps: seq<Step>, k: nat)
    requires k < |steps| && Conserved(start, Run(mode, Init(start), steps[..k]).db)
    ensures Conserved(start, Run(mode, Init(start), steps[..k + 1]).db) <==>
            !GivesTwice(Run(mode, Init(start), steps[..k]), steps[k])
  {
    RunNext(mode, Init(start), steps, k);
    SerialRun(mode, start, steps[..k]);
    ConservedStepIff(mode, start, Run(mode, Init(start), steps[..k]), steps[k]);
  }

  lemma {:induction false} ConservedPrefix(mode: Mode, start: S.Level, steps: seq<Step>, k: nat)
    requires start.available >= 0 && k <= |steps| && NeverGivesTwice(mode, start, steps)
    ensures Conserved(start, Run(mode, Init(start), steps[..k]).db)
  {
    if k == 0 {
      assert steps[..0] == [];
    } else {
      ConservedPrefix(mode, start, steps, k - 1);
      ConservedNext(mode, start, steps, k - 1);
    }
  }

  /**
   For any number of overlapping transactions, refunds included, with or without the row lock: stock is
   conserved all along if and only if no restore finishes, at an unmoved version, on a reservation that is
   no longer RESERVED.
   */
  lemma {:induction false} ConservedIff(mode: Mode, start: S.Level, steps: seq<Step>)
    requires start.available >= 0
    ensures AlwaysConserved(mode, start, steps) <==> NeverGivesTwice(mode, start, steps)
  {
    if NeverGivesTwice(mode, start, steps) {
      forall k | 0 <= k <= |steps|
        ensures Conserved(start, Run(mode, Init(start), steps[..k]).db)
      {
        ConservedPrefix(mode, start, steps, k);
      }
    }
    if AlwaysConserved(mode, start, steps) {
      forall k | 0 <= k < |steps|
        ensures !GivesTwice(Run(mode, Init(start), steps[..k]), steps[k])
      {
        ConservedNext(mode, start, steps, k);
      }
    }
  }

  // ------------------------------------------------ one refund at a time

  /** The one refund in flight, if any, is for the first RESERVED row of its order. */
  ghost predicate RefundsApart(s: State) {
    && (forall t :: t in s.txs && s.txs[t].RestoreTx? ==>
          S.FindReserved(s.db.reservations, s.txs[t].order) == s.txs[t].row)
    && (forall t, u :: t in s.txs && u in s.txs && s.txs[t].RestoreTx? && s.txs[u].RestoreTx? ==> t == u)
  }

  lemma FirstReservedStays(rows: seq<S.Reservation>, row: S.Reservation, order: nat)
    requires S.FindReserved(rows, order) >= 0
    ensures S.FindReserved(rows + [row], order) == S.FindReserved(rows, order)
  {
    var i, j := S.FindReserved(rows, order), S.FindReserved(rows + [row], order);
    assert (rows + [row])[i].order == order && (rows + [row])[i].status.Reserved?;
    assert forall k :: 0 <= k < |rows| ==> (rows + [row])[k] == rows[k];
  }

  lemma ConcludeKeepsRefund(db: S.Db, tx: Tx, uuid: EventId, order: nat)
    requires db.product.Found? && tx.ReserveTx? && tx.snapshot.Seen? && S.FindReserved(db.reservations, order) >= 0
    ensures S.FindReserved(Conclude(db, tx, uuid).0.reservations, order) == S.FindReserved(db.reservations, order)
  {
    FirstReservedStays(db.reservations, S.Reservation(tx.key.order, S.UNIT, S.Reserved, tx.key), order);
  }

  lemma RefundsFinish(mode: Mode, s: State, t: TxId, uuid: EventId)
    requires RefundsApart(s) && s.db.product.Found? && t in s.txs && s.txs[t].snapshot.Seen?
    ensures RefundsApart(Apply(mode, s, Finish(t, uuid)))
  {
    var s' := Apply(mode, s, Finish(t, uuid));
    forall u | u in s'.txs && s'.txs[u].RestoreTx?
      ensures S.FindReserved(s'.db.reservations, s'.txs[u].order) == s'.txs[u].row
    {
      assert s.txs[t].ReserveTx?;
      ConcludeKeepsRefund(s.db, s.txs[t], uuid, s.txs[u].order);
    }
  }

  lemma RefundsStep(mode: Mode, s: State, step: Step)
    requires RefundsApart(s) && !mode.overlappingRefunds
    ensures RefundsApart(Apply(mode, s, step))
  {
    if step.Finish? && step.tx in s.txs && s.txs[step.tx].snapshot.Seen? && s.db.product.Found? {
      RefundsFinish(mode, s, step.tx, step.uuid);
    }
  }

  lemma {:induction false} RefundsRun(mode: Mode, start: S.Level, steps: seq<Step>)
    requires !mode.overlappingRefunds
    ensures RefundsApart(Run(mode, Init(start), steps))
    decreases |steps|
  {
    if steps != [] {
      RefundsRun(mode, start, steps[..|steps| - 1]);
      RefundsStep(mode, Run(mode, Init(start), steps[..|steps| - 1]), steps[|steps| - 1]);
    }
  }

  /**
   No lost update. In every run, whatever overlaps and with or without the row lock, the version counts
   the winning updates and the database is that of the serial run of the commits in commit order. If
   refunds do not overlap, stock is conserved as well.
   */
  lemma {:induction false} NoLostUpdate(mode: Mode, start: S.Level, steps: seq<Step>)
    ensures var s := Run(mode, Init(start), steps);
      && s.db.product.Found?
      && s.db.product.level.version == start.version + Moves(s.commits)
      && s.db == Replay(Init(start).db, s.commits)
      && (start.available >= 0 && !mode.overlappingRefunds ==> Conserved(start, s.db))
  {
    SerialRun(mode, start, steps);
    if start.available >= 0 && !mode.overlappingRefunds {
      forall k | 0 <= k < |steps|
        ensures !GivesTwice(Run(mode, Init(start), steps[..k]), steps[k])
      {
        RefundsRun(mode, start, steps[..k]);
      }
      ConservedPrefix(mode, start, steps, |steps|);
      assert steps[..|steps|] == steps;
    }
  }

  // ------------------------------------------------ with the row lock

  /** Whoever has read the row holds the lock, so the row has not moved since. */
  ghost predicate LockInv(s: State) {
    && s.db.product.Found?
    && (forall t :: t in s.txs && s.txs[t].snapshot.Seen? ==>
          s.lock == HeldBy(t) && s.txs[t].snapshot.level == s.db.product.level)
    && (forall e :: e in s.db.outbox && s.db.outbox[e].StockReservationFailed? ==>
          s.db.outbox[e].reason != VersionConflict)
  }

  lemma LockStep(mode: Mode, s: State, step: Step)
    requires LockInv(s) && mode.locking
    ensures LockInv(Apply(mode, s, step))
  {
  }

  lemma {:induction false} LockRun(mode: Mode, start: S.Level, steps: seq<Step>)
    requires mode.locking
    ensures LockInv(Run(mode, Init(start), steps))
    decreases |steps|
  {
    if steps != [] {
      LockRun(mode, start, steps[..|steps| - 1]);
      LockStep(mode, Run(mode, Init(start), steps[..|steps| - 1]), steps[|steps| - 1]);
    }
  }

  /**
   Under the lock "version conflict" is never published, a compare-and-set never misses, and a failure
   is published only when no unit is left at that very moment.
   */
  lemma {:induction false} ConflictBranchIsDead(mode: Mode, start: S.Level, steps: seq<Step>, tx: TxId, uuid: EventId)
    requires mode.locking
    ensures var s := Run(mode, Init(start), steps);
      && s.db.product.Found?
      && (forall e :: e in s.db.outbox && s.db.outbox[e].StockReservationFailed? ==>
            s.db.outbox[e].reason == ProductNotFound || s.db.outbox[e].reason == InsufficientStock)
      && (tx in s.txs && s.txs[tx].snapshot.Seen? ==>
            && s.txs[tx].snapshot.level.version == s.db.product.level.version
            && forall c :: c in Conclude(s.db, s.txs[tx], uuid).1 && c.Failed? ==>
                 s.db.product.level.available < S.UNIT)
  {
    LockRun(mode, start, steps);
  }

  /** In flight: no two reservations under one key, and none under a key already used. */
  ghost predicate KeysApart(s: State) {
    && (forall t :: t in s.txs && s.txs[t].ReserveTx? ==> !S.HasKey(s.db.reservations, s.txs[t].key))
    && (forall t, u | t in s.txs && u in s.txs && s.txs[t].ReserveTx? && s.txs[u].ReserveTx? ::
          s.txs[t].key == s.txs[u].key ==> t == u)
  }

  lemma OtherKeyStillFree(rows: seq<S.Reservation>, row: S.Reservation, key: Key)
    requires !S.HasKey(rows, key) && row.key != key
    ensures !S.HasKey(rows + [row], key)
  {
  }

  lemma CancelKeepsKeys(rows: seq<S.Reservation>, i: nat, key: Key)
    requires !S.HasKey(rows, key) && i < |rows|
    ensures !S.HasKey(rows[i := rows[i].(status := S.Cancelled)], key)
  {
    var rows' := rows[i := rows[i].(status := S.Cancelled)];
    forall k | 0 <= k < |rows'|
      ensures rows'[k].key != key
    {
      assert rows'[k].key == rows[k].key;
    }
  }

  lemma KeysStayFree(s: State, t: TxId, uuid: EventId, u: TxId)
    requires KeysApart(s) && s.db.product.Found? && t in s.txs && s.txs[t].snapshot.Seen?
    requires u in s.txs && u != t && s.txs[u].ReserveTx?
    ensures !S.HasKey(Conclude(s.db, s.txs[t], uuid).0.reservations, s.txs[u].key)
  {
    var key := s.txs[u].key;
    match s.txs[t] {
      case ReserveTx(mine, _) =>
        OtherKeyStillFree(s.db.reservations, S.Reservation(mine.order, S.UNIT, S.Reserved, mine), key);
      case RestoreTx(_, row, _) =>
        if row < |s.db.reservations| {
          CancelKeepsKeys(s.db.reservations, row, key);
        }
    }
  }

  lemma KeysStep(mode: Mode, s: State, step: Step)
    requires KeysApart(s) && !mode.overlappingEvents && s.db.product.Found?
    ensures KeysApart(Apply(mode, s, step))
  {
    if step.Finish? && step.tx in s.txs && s.txs[step.tx].snapshot.Seen? {
      var s' := Apply(mode, s, step);
      forall u | u in s'.txs && s'.txs[u].ReserveTx?
        ensures !S.HasKey(s'.db.reservations, s'.txs[u].key)
      {
        KeysStayFree(s, step.tx, step.uuid, u);
      }
    }
  }

  // ------------------------------------------------ atomicity

  /** The transaction finishes although its lookup would now answer otherwise, and the difference shows. */
  ghost predicate TooLate(s: State, step: Step) {
    && step.Finish? && step.tx in s.txs && s.txs[step.tx].snapshot.Seen? && s.db.product.Found?
    && match s.txs[step.tx]
       case ReserveTx(key, _) => S.HasKey(s.db.reservations, key) && s.db.product.level.available < S.UNIT
       case RestoreTx(order, row, _) => S.FindReserved(s.db.reservations, order) != row
  }

  /** A version 4 UUID is never drawn twice. */
  predicate FreshId(s: State, step: Step) {
    step.Finish? ==> step.uuid !in s.db.outbox
  }

  lemma RestoresDiffer(db: S.Db, level: S.Level, row: nat, other: nat, uuid: EventId)
    requires row < |db.reservations| && other < |db.reservations| && row != other
    ensures S.RestoreFrom(db, level, row, uuid) != S.RestoreFrom(db, level, other, uuid)
  {
    assert S.RestoreFrom(db, level, row, uuid).outbox[uuid] != S.RestoreFrom(db, level, other, uuid).outbox[uuid];
  }

  /** A transaction that read under the lock ends as the whole handler run alone would, unless it is too late. */
  lemma ConcludeIsAtomic(s: State, t: TxId, uuid: EventId)
    requires LockInv(s) && t in s.txs && s.txs[t].snapshot.Seen? && TxInv(s.db, s.txs[t])
    requires !TooLate(s, Finish(t, uuid))
    ensures Conclude(s.db, s.txs[t], uuid).0 == ServeOne(s.db, RequestOf(s.txs[t], uuid))
  {
  }

  lemma LateReserveShows(s: State, t: TxId, uuid: EventId)
    requires LockInv(s) && t in s.txs && s.txs[t].snapshot.Seen? && s.txs[t].ReserveTx?
    requires TooLate(s, Finish(t, uuid)) && uuid !in s.db.outbox
    ensures Conclude(s.db, s.txs[t], uuid).0 != ServeOne(s.db, RequestOf(s.txs[t], uuid))
  {
    assert uuid in Conclude(s.db, s.txs[t], uuid).0.outbox;
  }

  lemma LateRestoreShows(s: State, t: TxId, uuid: EventId)
    requires LockInv(s) && t in s.txs && s.txs[t].snapshot.Seen? && s.txs[t].RestoreTx? && TxInv(s.db, s.txs[t])
    requires TooLate(s, Finish(t, uuid)) && uuid !in s.db.outbox
    ensures Conclude(s.db, s.txs[t], uuid).0 != ServeOne(s.db, RequestOf(s.txs[t], uuid))
  {
    var i := S.FindReserved(s.db.reservations, s.txs[t].order);
    assert uuid in Conclude(s.db, s.txs[t], uuid).0.outbox;
    if i >= 0 {
      RestoresDiffer(s.db, s.db.product.level, s.txs[t].row, i, uuid);
    }
  }

  /** The database is that of the whole handlers, served one after another. */
  ghost predicate Atomic(start: S.Level, s: State) {
    s.db == Serve(Init(start).db, s.served)
  }

  lemma AtomicStep(mode: Mode, start: S.Level, s: State, step: Step)
    requires LockInv(s) && SerialInv(start, s) && Atomic(start, s) && !TooLate(s, step)
    ensures Atomic(start, Apply(mode, s, step))
  {
    if step.Finish? && step.tx in s.txs && s.txs[step.tx].snapshot.Seen? {
      ConcludeIsAtomic(s, step.tx, step.uuid);
      ServeNext(Init(start).db, s.served, RequestOf(s.txs[step.tx], step.uuid));
    }
  }

  lemma LateStep(mode: Mode, start: S.Level, s: State, step: Step)
    requires LockInv(s) && SerialInv(start, s) && Atomic(start, s) && TooLate(s, step) && FreshId(s, step)
    ensures !Atomic(start, Apply(mode, s, step))
  {
    assert TxInv(s.db, s.txs[step.tx]);
    ServeNext(Init(start).db, s.served, RequestOf(s.txs[step.tx], step.uuid));
    if s.txs[step.tx].ReserveTx? {
      LateReserveShows(s, step.tx, step.uuid);
    } else {
      LateRestoreShows(s, step.tx, step.uuid);
    }
  }

  ghost predicate AlwaysAtomic(mode: Mode, start: S.Level, steps: seq<Step>) {
    forall k :: 0 <= k <= |steps| ==> Atomic(start, Run(mode, Init(start), steps[..k]))
  }

  ghost predicate NeverTooLate(mode: Mode, start: S.Level, steps: seq<Step>) {
    forall k :: 0 <= k < |steps| ==> !TooLate(Run(mode, Init(start), steps[..k]), steps[k])
  }

  ghost predicate FreshIds(mode: Mode, start: S.Level, steps: seq<Step>) {
    forall k :: 0 <= k < |steps| ==> FreshId(Run(mode, Init(start), steps[..k]), steps[k])
  }

  lemma {:induction false} AtomicNext(mode: Mode, start: S.Level, steps: seq<Step>, k: nat)
    requires mode.locking && k < |steps| && Atomic(start, Run(mode, Init(start), steps[..k]))
    ensures var s := Run(mode, Init(start), steps[..k]);
      && (!TooLate(s, steps[k]) ==> Atomic(start, Run(mode, Init(start), steps[..k + 1])))
      && (TooLate(s, steps[k]) && FreshId(s, steps[k]) ==> !Atomic(start, Run(mode, Init(start), steps[..k + 1])))
  {
    var s := Run(mode, Init(start), steps[..k]);
    RunNext(mode, Init(start), steps, k);
    SerialRun(mode, start, steps[..k]);
    LockRun(mode, start, steps[..k]);
    if !TooLate(s, steps[k]) {
      AtomicStep(mode, start, s, steps[k]);
    } else if FreshId(s, steps[k]) {
      LateStep(mode, start, s, steps[k]);
    }
  }

  lemma {:induction false} AtomicPrefix(mode: Mode, start: S.Level, steps: seq<Step>, k: nat)
    requires mode.locking && k <= |steps| && NeverTooLate(mode, start, steps)
    ensures Atomic(start, Run(mode, Init(start), steps[..k]))
  {
    if k == 0 {
      assert steps[..0] == [];
    } else {
      AtomicPrefix(mode, start, steps, k - 1);
      AtomicNext(mode, start, steps, k - 1);
    }
  }

  /**
   Under the row lock, whatever overlaps: the interleaved transactions leave all along what the whole
   handlers would have left one after another, if and only if none finishes too late, that is a
   reservation whose key was used meanwhile when nothing is left, or a restore whose row is no longer the
   order's first RESERVED one.
   */
  lemma {:induction false} AtomicIff(mode: Mode, start: S.Level, steps: seq<Step>)
    requires mode.locking && FreshIds(mode, start, steps)
    ensures AlwaysAtomic(mode, start, steps) <==> NeverTooLate(mode, start, steps)
  {
    if NeverTooLate(mode, start, steps) {
      forall k | 0 <= k <= |steps|
        ensures Atomic(start, Run(mode, Init(start), steps[..k]))
      {
        AtomicPrefix(mode, start, steps, k);
      }
    }
    if AlwaysAtomic(mode, start, steps) {
      forall k | 0 <= k < |steps|
        ensures !TooLate(Run(mode, Init(start), steps[..k]), steps[k])
      {
        AtomicNext(mode, start, steps, k);
      }
    }
  }

  lemma {:induction false} KeysRun(mode: Mode, start: S.Level, steps: seq<Step>)
    requires !mode.overlappingEvents
    ensures KeysApart(Run(mode, Init(start), steps))
    decreases |steps|
  {
    if steps != [] {
      var before := steps[..|steps| - 1];
      KeysRun(mode, start, before);
      SerialRun(mode, start, before);
      KeysStep(mode, Run(mode, Init(start), before), steps[|steps| - 1]);
    }
  }

  /**
   With the row lock, and deliveries of one event as well as refunds handled one at a time, the
   interleaved transactions are atomic.
   */
  lemma {:induction false} LockMakesAtomic(mode: Mode, start: S.Level, steps: seq<Step>)
    requires mode.locking && !mode.overlappingEvents && !mode.overlappingRefunds
    ensures Atomic(start, Run(mode, Init(start), steps)) && KeysApart(Run(mode, Init(start), steps))
  {
    forall k | 0 <= k < |steps|
      ensures !TooLate(Run(mode, Init(start), steps[..k]), steps[k])
    {
      KeysRun(mode, start, steps[..k]);
      RefundsRun(mode, start, steps[..k]);
    }
    AtomicPrefix(mode, start, steps, |steps|);
    KeysRun(mode, start, steps);
    assert steps[..|steps|] == steps;
  }
}

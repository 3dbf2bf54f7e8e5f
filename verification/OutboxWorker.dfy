/** The outbox table and the worker that publishes it, pass after pass. */
module OutboxWorker {
  import opened Events

  datatype Status = Pending | Sent

  datatype Row = Row(body: Event, status: Status)

  /** Rows in created_at order; identifiers are positions. `topic` is what Kafka holds. */
  datatype OutboxTable = OutboxTable(rows: seq<Row>, topic: seq<Message>)

  /**
   What goes wrong in one pass: rows whose publish fails, and rows whose mark is lost. A crash is a
   pass in which every later publish fails; a publish whose answer is lost is a lost mark.
   */
  datatype World = World(down: set<nat>, unmarked: set<nat>)

  const LIMIT := 100

  function PendingIds(rows: seq<Row>): (ids: seq<nat>)
    ensures forall i :: 0 <= i < |ids| ==> ids[i] < |rows| && rows[ids[i]].status.Pending?
    ensures forall i, j :: 0 <= i < j < |ids| ==> ids[i] < ids[j]
  {
    if rows == [] then []
    else
      var n := |rows| - 1;
      PendingIds(rows[..n]) + if rows[n].status.Pending? then [n] else []
  }

  function Batch(rows: seq<Row>, limit: nat): seq<nat> {
    var ids := PendingIds(rows);
    if |ids| <= limit then ids else ids[..limit]
  }

  /** One row of the batch: publish, and mark only what was published. */
  function One(o: OutboxTable, id: nat, w: World): OutboxTable
    requires id < |o.rows|
  {
    if id in w.down then o
    else OutboxTable(if id in w.unmarked then o.rows else o.rows[id := o.rows[id].(status := Sent)],
                     o.topic + [Message(id, o.rows[id].body)])
  }

  /** A failing row is skipped, not waited for. */
  function Work(o: OutboxTable, batch: seq<nat>, w: World): (o': OutboxTable)
    requires forall i :: 0 <= i < |batch| ==> batch[i] < |o.rows|
    ensures |o'.rows| == |o.rows|
    decreases |batch|
  {
    if batch == [] then o else One(Work(o, batch[..|batch| - 1], w), batch[|batch| - 1], w)
  }

  function Pass(o: OutboxTable, w: World): (o': OutboxTable)
    ensures |o'.rows| == |o.rows|
  {
    Work(o, Batch(o.rows, LIMIT), w)
  }

  class Worker {
    var rows: seq<Row>
    var topic: seq<Message>

    constructor ()
      ensures Value() == OutboxTable([], [])
    {
      rows, topic := [], [];
    }

    function Value(): OutboxTable
      reads this
    {
      OutboxTable(rows, topic)
    }

    /** InsertTx, once its transaction commits. */
    method Insert(body: Event)
      modifies this`rows
      ensures Value() == old(Value()).(rows := old(rows) + [Row(body, Pending)])
    {
      rows := rows + [Row(body, Pending)];
    }

    /** The oldest pending rows, collected one by one. */
    method FindPending(limit: nat) returns (events: seq<nat>)
      ensures events == Batch(rows, limit)
    {
      events := [];
      var next := 0;
      while next < |rows| && |events| < limit
        invariant next <= |rows|
        invariant events == PendingIds(rows[..next]) && |events| <= limit
      {
        PendingNext(rows, next);
        if rows[next].status.Pending? {
          events := events + [next];
        }
        next := next + 1;
      }
      BatchIsPrefix(rows, next, limit);
    }

    method MarkSent(id: nat)
      requires id < |rows|
      modifies this`rows
      ensures rows == old(rows)[id := old(rows)[id].(status := Sent)]
    {
      rows := rows[id := rows[id].(status := Sent)];
    }

    /** One tick of the worker. */
    method Process(w: World)
      modifies this
      ensures Value() == Pass(old(Value()), w)
    {
      var events := FindPending(LIMIT);
      ghost var start := Value();
      for n := 0 to |events|
        invariant |rows| == |start.rows|
        invariant Value() == Work(start, events[..n], w)
      {
        var id := events[n];
        assert events[..n + 1][..n] == events[..n];
        if id in w.down {
          continue;
        }
        topic := topic + [Message(id, rows[id].body)];
        if id !in w.unmarked {
          MarkSent(id);
        }
      }
      assert events[..|events|] == events;
    }
  }

  lemma PendingNext(rows: seq<Row>, n: nat)
    requires n < |rows|
    ensures PendingIds(rows[..n + 1]) == PendingIds(rows[..n]) + if rows[n].status.Pending? then [n] else []
  {
    assert rows[..n + 1][..n] == rows[..n];
  }

  lemma {:induction false} PendingPrefix(rows: seq<Row>, n: nat)
    requires n <= |rows|
    ensures PendingIds(rows[..n]) <= PendingIds(rows)
    decreases |rows| - n
  {
    if n < |rows| {
      PendingNext(rows, n);
      PendingPrefix(rows, n + 1);
    } else {
      assert rows[..n] == rows;
    }
  }

  /** A pending row comes after the pending ones older than it. */
  lemma PlaceOf(rows: seq<Row>, r: nat) returns (k: nat)
    requires r < |rows| && rows[r].status.Pending?
    ensures k == |PendingIds(rows[..r])| && k < |PendingIds(rows)| && PendingIds(rows)[k] == r
  {
    k := |PendingIds(rows[..r])|;
    PendingNext(rows, r);
    PendingPrefix(rows, r + 1);
    assert PendingIds(rows[..r + 1])[k] == r;
  }

  lemma BatchIsPrefix(rows: seq<Row>, n: nat, limit: nat)
    requires n <= |rows| && |PendingIds(rows[..n])| <= limit
    requires n == |rows| || |PendingIds(rows[..n])| == limit
    ensures PendingIds(rows[..n]) == Batch(rows, limit)
  {
    PendingPrefix(rows, n);
    if n == |rows| {
      assert rows[..n] == rows;
    }
  }

  // ------------------------------------------------ nothing is lost, over all runs

  datatype Step = Insert(body: Event) | Tick(world: World)

  function Apply(o: OutboxTable, step: Step): OutboxTable {
    match step
    case Insert(body) => o.(rows := o.rows + [Row(body, Pending)])
    case Tick(w) => Pass(o, w)
  }

  function Run(o: OutboxTable, steps: seq<Step>): OutboxTable
    decreases |steps|
  {
    if steps == [] then o else Apply(Run(o, steps[..|steps| - 1]), steps[|steps| - 1])
  }

  /** The row's message is in the topic. */
  ghost predicate InTopic(o: OutboxTable, id: nat) {
    id < |o.rows| && Message(id, o.rows[id].body) in o.topic
  }

  /** SENT means published, and whatever is in the topic is the message of some inserted row. */
  ghost predicate NothingLost(o: OutboxTable) {
    && (forall id :: 0 <= id < |o.rows| && o.rows[id].status.Sent? ==> InTopic(o, id))
    && (forall i :: 0 <= i < |o.topic| ==> o.topic[i].id < |o.rows| && o.topic[i].body == o.rows[o.topic[i].id].body)
  }

  /** Rows stay what they are, a SENT row stays SENT, and the topic only grows. */
  ghost predicate Later(o: OutboxTable, o': OutboxTable) {
    && |o.rows| <= |o'.rows|
    && (forall id :: 0 <= id < |o.rows| ==> o'.rows[id].body == o.rows[id].body)
    && (forall id :: 0 <= id < |o.rows| && o.rows[id].status.Sent? ==> o'.rows[id].status.Sent?)
    && o.topic <= o'.topic
  }

  lemma LaterStill(a: OutboxTable, b: OutboxTable, c: OutboxTable)
    requires Later(a, b) && Later(b, c)
    ensures Later(a, c)
  {
  }

  lemma OneKeeps(o: OutboxTable, id: nat, w: World)
    requires NothingLost(o) && id < |o.rows|
    ensures NothingLost(One(o, id, w)) && Later(o, One(o, id, w))
  {
    var o' := One(o, id, w);
    forall r | 0 <= r < |o'.rows| && o'.rows[r].status.Sent?
      ensures InTopic(o', r)
    {
      if r == id && id !in w.down {
        assert o'.topic[|o.topic|] == Message(id, o.rows[id].body);
      } else {
        assert InTopic(o, r);
      }
    }
  }

  lemma {:induction false} WorkKeeps(o: OutboxTable, batch: seq<nat>, w: World)
    requires NothingLost(o) && forall i :: 0 <= i < |batch| ==> batch[i] < |o.rows|
    ensures NothingLost(Work(o, batch, w)) && Later(o, Work(o, batch, w))
    decreases |batch|
  {
    if batch != [] {
      var n := |batch| - 1;
      WorkKeeps(o, batch[..n], w);
      OneKeeps(Work(o, batch[..n], w), batch[n], w);
      LaterStill(o, Work(o, batch[..n], w), Work(o, batch, w));
    }
  }

  lemma StepKeeps(o: OutboxTable, step: Step)
    requires NothingLost(o)
    ensures NothingLost(Apply(o, step)) && Later(o, Apply(o, step))
  {
    match step {
      case Insert(body) =>
        var o' := Apply(o, step);
        forall r | 0 <= r < |o'.rows| && o'.rows[r].status.Sent?
          ensures InTopic(o', r)
        {
          assert InTopic(o, r);
        }
      case Tick(w) => WorkKeeps(o, Batch(o.rows, LIMIT), w);
    }
  }

  /**
   With crashes anywhere and any publish or mark failing: every row is still PENDING or was published,
   every SENT row was published, everything published was inserted, and nothing goes back to PENDING.
   */
  lemma {:induction false} NoEventLost(o: OutboxTable, steps: seq<Step>)
    requires NothingLost(o)
    ensures NothingLost(Run(o, steps)) && Later(o, Run(o, steps))
    decreases |steps|
  {
    if steps != [] {
      NoEventLost(o, steps[..|steps| - 1]);
      StepKeeps(Run(o, steps[..|steps| - 1]), steps[|steps| - 1]);
      LaterStill(o, Run(o, steps[..|steps| - 1]), Run(o, steps));
    }
  }

  // ------------------------------------------------ order, and the starvation bound

  function Messages(rows: seq<Row>, ids: seq<nat>): seq<Message>
    requires forall i :: 0 <= i < |ids| ==> ids[i] < |rows|
  {
    seq(|ids|, i requires 0 <= i < |ids| => Message(ids[i], rows[ids[i]].body))
  }

  lemma {:induction false} WorkInOrder(o: OutboxTable, batch: seq<nat>, w: World)
    requires w.down == {} && forall i :: 0 <= i < |batch| ==> batch[i] < |o.rows|
    ensures Work(o, batch, w).topic == o.topic + Messages(o.rows, batch)
    ensures forall r :: 0 <= r < |o.rows| ==> Work(o, batch, w).rows[r].body == o.rows[r].body
    decreases |batch|
  {
    if batch != [] {
      var n := |batch| - 1;
      WorkInOrder(o, batch[..n], w);
      assert Messages(o.rows, batch) == Messages(o.rows, batch[..n]) + [Message(batch[n], o.rows[batch[n]].body)];
    }
  }

  lemma OutsideBatch(rows: seq<Row>, limit: nat, k: nat)
    requires k < |PendingIds(rows)|
    ensures PendingIds(rows)[k] in Batch(rows, limit) <==> k < limit
  {
    var ids, batch := PendingIds(rows), Batch(rows, limit);
    if k < limit {
      assert batch[k] == ids[k];
    }
  }

  /** The rows a pass leaves for later are the newer ones, and only when the batch is full. */
  lemma PassedOver(rows: seq<Row>, limit: nat, r: nat)
    requires r < |rows| && rows[r].status.Pending? && r !in Batch(rows, limit)
    ensures |Batch(rows, limit)| == limit && forall i :: 0 <= i < limit ==> Batch(rows, limit)[i] < r
  {
    var k := PlaceOf(rows, r);
    OutsideBatch(rows, limit, k);
  }

  /** A pass in which no publish fails appends the oldest pending rows in created_at order. */
  lemma PublishesInOrder(o: OutboxTable, w: World)
    requires w.down == {}
    ensures Pass(o, w).topic == o.topic + Messages(o.rows, Batch(o.rows, LIMIT))
    ensures forall i, j :: 0 <= i < j < |Batch(o.rows, LIMIT)| ==> Batch(o.rows, LIMIT)[i] < Batch(o.rows, LIMIT)[j]
    ensures forall r :: 0 <= r < |o.rows| && o.rows[r].status.Pending? && r !in Batch(o.rows, LIMIT) ==>
              |Batch(o.rows, LIMIT)| == LIMIT && forall i :: 0 <= i < LIMIT ==> Batch(o.rows, LIMIT)[i] < r
  {
    WorkInOrder(o, Batch(o.rows, LIMIT), w);
    forall r | 0 <= r < |o.rows| && o.rows[r].status.Pending? && r !in Batch(o.rows, LIMIT)
      ensures |Batch(o.rows, LIMIT)| == LIMIT && forall i :: 0 <= i < LIMIT ==> Batch(o.rows, LIMIT)[i] < r
    {
      PassedOver(o.rows, LIMIT, r);
    }
  }

  /** How many pending rows lie inside (or outside) a set of row identifiers. */
  function Waiting(rows: seq<Row>, dead: set<nat>, inside: bool): nat {
    if rows == [] then 0
    else
      var n := |rows| - 1;
      Waiting(rows[..n], dead, inside) + if rows[n].status.Pending? && ((n in dead) == inside) then 1 else 0
  }

  function Count(ids: seq<nat>, dead: set<nat>, inside: bool): nat {
    if ids == [] then 0
    else Count(ids[..|ids| - 1], dead, inside) + if (ids[|ids| - 1] in dead) == inside then 1 else 0
  }

  lemma CountNext(ids: seq<nat>, id: nat, dead: set<nat>, inside: bool)
    ensures Count(ids + [id], dead, inside) == Count(ids, dead, inside) + if (id in dead) == inside then 1 else 0
  {
    assert (ids + [id])[..|ids|] == ids;
  }

  lemma {:induction false} CountConcat(a: seq<nat>, b: seq<nat>, dead: set<nat>, inside: bool)
    ensures Count(a + b, dead, inside) == Count(a, dead, inside) + Count(b, dead, inside)
    decreases |b|
  {
    if b == [] {
      assert a + b == a;
    } else {
      assert (a + b)[..|a + b| - 1] == a + b[..|b| - 1];
      CountConcat(a, b[..|b| - 1], dead, inside);
    }
  }

  lemma {:induction false} CountBoth(ids: seq<nat>, dead: set<nat>)
    ensures Count(ids, dead, true) + Count(ids, dead, false) == |ids|
  {
    if ids != [] {
      CountBoth(ids[..|ids| - 1], dead);
    }
  }

  lemma {:induction false} WaitingIsCount(rows: seq<Row>, dead: set<nat>, inside: bool)
    ensures Waiting(rows, dead, inside) == Count(PendingIds(rows), dead, inside)
  {
    if rows != [] {
      var n := |rows| - 1;
      WaitingIsCount(rows[..n], dead, inside);
      if rows[n].status.Pending? {
        CountNext(PendingIds(rows[..n]), n, dead, inside);
      } else {
        assert PendingIds(rows) == PendingIds(rows[..n]);
      }
    }
  }

  lemma {:induction false} MarkLowers(rows: seq<Row>, id: nat, dead: set<nat>, inside: bool)
    requires id < |rows| && rows[id].status.Pending?
    ensures Waiting(rows[id := rows[id].(status := Sent)], dead, inside) ==
            Waiting(rows, dead, inside) - if (id in dead) == inside then 1 else 0
  {
    var rows' := rows[id := rows[id].(status := Sent)];
    var n := |rows| - 1;
    if id == n {
      assert rows'[..n] == rows[..n];
    } else {
      assert rows'[..n] == rows[..n][id := rows[id].(status := Sent)];
      MarkLowers(rows[..n], id, dead, inside);
    }
  }

  /** Working off distinct pending rows sends exactly those that are not dead. */
  lemma {:induction false} WorkLowers(o: OutboxTable, batch: seq<nat>, dead: set<nat>)
    requires forall i :: 0 <= i < |batch| ==> batch[i] < |o.rows| && o.rows[batch[i]].status.Pending?
    requires forall i, j :: 0 <= i < j < |batch| ==> batch[i] < batch[j]
    ensures var rows := Work(o, batch, World(dead, {})).rows;
      && Waiting(rows, dead, true) == Waiting(o.rows, dead, true)
      && Waiting(rows, dead, false) == Waiting(o.rows, dead, false) - Count(batch, dead, false)
      && forall r :: 0 <= r < |rows| && r !in batch ==> rows[r] == o.rows[r]
    decreases |batch|
  {
    if batch != [] {
      var n := |batch| - 1;
      WorkLowers(o, batch[..n], dead);
      var before := Work(o, batch[..n], World(dead, {}));
      assert batch[n] !in batch[..n];
      if batch[n] !in dead {
        MarkLowers(before.rows, batch[n], dead, true);
        MarkLowers(before.rows, batch[n], dead, false);
      }
    }
  }

  /** One pass clears at least LIMIT minus the dead rows of what is publishable, or all of it. */
  lemma PassProgress(o: OutboxTable, dead: set<nat>)
    ensures var rows := Pass(o, World(dead, {})).rows;
      var good, bad := Waiting(o.rows, dead, false), Waiting(o.rows, dead, true);
      && Waiting(rows, dead, true) == bad
      && Waiting(rows, dead, false) <= good
      && (Waiting(rows, dead, false) == 0 || Waiting(rows, dead, false) <= good - (LIMIT - bad))
  {
    var batch := Batch(o.rows, LIMIT);
    WorkLowers(o, batch, dead);
    BatchCounts(o.rows, dead);
  }

  /** What the batch holds: all that is pending, or LIMIT rows of which no more than all can be dead. */
  lemma BatchCounts(rows: seq<Row>, dead: set<nat>)
    ensures var batch := Batch(rows, LIMIT);
      && Count(batch, dead, false) <= Waiting(rows, dead, false)
      && (Count(batch, dead, false) == Waiting(rows, dead, false) ||
          Count(batch, dead, false) >= LIMIT - Waiting(rows, dead, true))
  {
    var ids, batch := PendingIds(rows), Batch(rows, LIMIT);
    var rest := ids[|batch|..];
    WaitingIsCount(rows, dead, true);
    WaitingIsCount(rows, dead, false);
    assert ids == batch + rest;
    CountConcat(batch, rest, dead, true);
    CountConcat(batch, rest, dead, false);
    CountBoth(batch, dead);
    CountBoth(rest, dead);
  }

  function Passes(o: OutboxTable, w: World, n: nat): OutboxTable {
    if n == 0 then o else Pass(Passes(o, w, n - 1), w)
  }

  lemma {:induction false} PassesProgress(o: OutboxTable, dead: set<nat>, n: nat)
    ensures var rows := Passes(o, World(dead, {}), n).rows;
      var good, bad := Waiting(o.rows, dead, false), Waiting(o.rows, dead, true);
      && Waiting(rows, dead, true) == bad
      && (Waiting(rows, dead, false) == 0 || Waiting(rows, dead, false) <= good - n * (LIMIT - bad))
  {
    if n > 0 {
      var before := Passes(o, World(dead, {}), n - 1);
      PassesProgress(o, dead, n - 1);
      PassProgress(before, dead);
      assert Passes(o, World(dead, {}), n) == Pass(before, World(dead, {}));
      var bad := Waiting(o.rows, dead, true);
      assert n * (LIMIT - bad) == (n - 1) * (LIMIT - bad) + (LIMIT - bad);
    }
  }

  lemma {:induction false} NoneWaiting(rows: seq<Row>, dead: set<nat>, r: nat)
    requires Waiting(rows, dead, false) == 0 && r < |rows| && r !in dead
    ensures rows[r].status.Sent?
  {
    if r < |rows| - 1 {
      NoneWaiting(rows[..|rows| - 1], dead, r);
    }
  }

  lemma {:induction false} PassesKeep(o: OutboxTable, w: World, n: nat)
    requires NothingLost(o)
    ensures NothingLost(Passes(o, w, n)) && Later(o, Passes(o, w, n))
  {
    if n > 0 {
      PassesKeep(o, w, n - 1);
      StepKeeps(Passes(o, w, n - 1), Tick(w));
      LaterStill(o, Passes(o, w, n - 1), Passes(o, w, n));
    }
  }

  /** ceil(g / d) for a positive divisor. */
  function CeilDiv(g: nat, d: nat): (n: nat)
    requires d > 0
    ensures n * d >= g && (n > 0 ==> (n - 1) * d < g)
  {
    if g == 0 then 0 else (g - 1) / d + 1
  }

  /**
   If fewer than LIMIT pending rows always fail and no new rows arrive, every publishable row is
   published and SENT after ceil(g / (LIMIT - k)) passes.
   */
  lemma StarvationBound(o: OutboxTable, dead: set<nat>, r: nat)
    requires NothingLost(o) && Waiting(o.rows, dead, true) < LIMIT && r < |o.rows| && r !in dead
    ensures var n := CeilDiv(Waiting(o.rows, dead, false), LIMIT - Waiting(o.rows, dead, true));
      var o' := Passes(o, World(dead, {}), n);
      r < |o'.rows| && o'.rows[r].status.Sent? && InTopic(o', r)
  {
    var n := CeilDiv(Waiting(o.rows, dead, false), LIMIT - Waiting(o.rows, dead, true));
    var o' := Passes(o, World(dead, {}), n);
    PassesProgress(o, dead, n);
    PassesKeep(o, World(dead, {}), n);
    NoneWaiting(o'.rows, dead, r);
  }

  // ------------------------------------------------ newer rows never matter

  /** The effect of working off a batch, row by row. */
  lemma {:induction false} WorkOfRow(o: OutboxTable, batch: seq<nat>, w: World, id: nat)
    requires (forall i :: 0 <= i < |batch| ==> batch[i] < |o.rows|) && id < |o.rows|
    ensures Work(o, batch, w).rows[id] ==
            if id in batch && id !in w.down && id !in w.unmarked then o.rows[id].(status := Sent) else o.rows[id]
    decreases |batch|
  {
    if batch != [] {
      var n := |batch| - 1;
      WorkOfRow(o, batch[..n], w, id);
      assert batch == batch[..n] + [batch[n]];
    }
  }

  /** A row is in the batch of all rows exactly when it is in the batch of the rows up to it and a few more. */
  lemma BatchOfOlder(rows: seq<Row>, limit: nat, p: nat, id: nat)
    requires id < p <= |rows|
    ensures id in Batch(rows[..p], limit) <==> id in Batch(rows, limit)
  {
    PendingPrefix(rows, p);
    if rows[id].status.Pending? {
      assert rows[..p][id] == rows[id];
      var k := PlaceOf(rows[..p], id);
      OutsideBatch(rows[..p], limit, k);
      OutsideBatch(rows, limit, k);
    }
  }

  /**
   One tick, row by row: exactly the rows among the first hundred pending ones change, those that are
   published and marked.
   */
  lemma TickOfRow(o: OutboxTable, w: World, id: nat)
    requires id < |o.rows|
    ensures Pass(o, w).rows[id] ==
            if o.rows[id].status.Pending? && |PendingIds(o.rows[..id])| < 100 && id !in w.down && id !in w.unmarked
            then Row(o.rows[id].body, Sent) else o.rows[id]
  {
    WorkOfRow(o, Batch(o.rows, LIMIT), w, id);
    if o.rows[id].status.Pending? {
      var k := PlaceOf(o.rows, id);
      OutsideBatch(o.rows, LIMIT, k);
    } else {
      assert id !in PendingIds(o.rows);
    }
  }

  /** A tick without failures sends everything if at most a hundred rows are pending, and else the first hundred. */
  lemma HundredAreSent(o: OutboxTable)
    ensures var ids, rows := PendingIds(o.rows), Pass(o, World({}, {})).rows;
      && (|ids| <= 100 ==> forall id :: 0 <= id < |rows| ==> rows[id].status.Sent?)
      && (forall k :: 0 <= k < |ids| ==> (rows[ids[k]].status.Sent? <==> k < 100))
  {
    forall id | 0 <= id < |o.rows|
      ensures |PendingIds(o.rows)| <= 100 ==> Pass(o, World({}, {})).rows[id].status.Sent?
    {
      TickOfRow(o, World({}, {}), id);
      if o.rows[id].status.Pending? {
        var k := PlaceOf(o.rows, id);
      }
    }
    forall k | 0 <= k < |PendingIds(o.rows)|
      ensures Pass(o, World({}, {})).rows[PendingIds(o.rows)[k]].status.Sent? <==> k < 100
    {
      var id := PendingIds(o.rows)[k];
      var place := PlaceOf(o.rows, id);
      TickOfRow(o, World({}, {}), id);
    }
  }

  /** What a pass does to the oldest rows depends on them alone. */
  lemma PassOfOlder(o: OutboxTable, q: OutboxTable, w: World, p: nat)
    requires p <= |o.rows| && q.rows == o.rows[..p]
    ensures Pass(q, w).rows == Pass(o, w).rows[..p]
  {
    forall id | 0 <= id < p
      ensures Pass(q, w).rows[id] == Pass(o, w).rows[id]
    {
      BatchOfOlder(o.rows, LIMIT, p, id);
      WorkOfRow(o, Batch(o.rows, LIMIT), w, id);
      WorkOfRow(q, Batch(q.rows, LIMIT), w, id);
    }
  }

  lemma PassesNext(o: OutboxTable, w: World, n: nat)
    ensures Passes(o, w, n + 1) == Pass(Passes(o, w, n), w)
  {
  }

  /** The first outbox holds the p oldest rows of the second. */
  predicate Older(q: OutboxTable, o: OutboxTable, p: nat) {
    p <= |o.rows| && q.rows == o.rows[..p]
  }

  lemma StillOlder(o: OutboxTable, q: OutboxTable, o': OutboxTable, q': OutboxTable, w: World, p: nat)
    requires Older(q, o, p) && o' == Pass(o, w) && q' == Pass(q, w)
    ensures Older(q', o', p)
  {
    PassOfOlder(o, q, w, p);
  }

  lemma {:induction false} PassesOfOlder(o: OutboxTable, q: OutboxTable, w: World, p: nat, n: nat)
    requires Older(q, o, p)
    ensures |Passes(o, w, n).rows| == |o.rows| && Older(Passes(q, w, n), Passes(o, w, n), p)
  {
    if n > 0 {
      PassesOfOlder(o, q, w, p, n - 1);
      PassesNext(o, w, n - 1);
      PassesNext(q, w, n - 1);
      StillOlder(Passes(o, w, n - 1), Passes(q, w, n - 1), Passes(o, w, n), Passes(q, w, n), w, p);
    }
  }

  /** The row is SENT after this many passes. */
  ghost predicate SentAfter(o: OutboxTable, w: World, n: nat, r: nat) {
    r < |Passes(o, w, n).rows| && Passes(o, w, n).rows[r].status.Sent?
  }

  lemma WaitingUpTo(rows: seq<Row>, dead: set<nat>, r: nat)
    requires r < |rows| && r !in dead
    ensures Waiting(rows[..r + 1], dead, true) == Waiting(rows[..r], dead, true)
  {
    assert rows[..r + 1][..r] == rows[..r];
  }

  /**
   The same bound row by row: only rows no newer than r count. It needs fewer than LIMIT failing rows
   that are older than r, however many newer ones fail.
   */
  lemma SentWithin(o: OutboxTable, dead: set<nat>, r: nat)
    requires r < |o.rows| && r !in dead && Waiting(o.rows[..r], dead, true) < LIMIT
    ensures var n := CeilDiv(Waiting(o.rows[..r + 1], dead, false), LIMIT - Waiting(o.rows[..r], dead, true));
      && SentAfter(o, World(dead, {}), n, r)
      && (NothingLost(o) ==> InTopic(Passes(o, World(dead, {}), n), r))
  {
    var w, q := World(dead, {}), o.(rows := o.rows[..r + 1]);
    WaitingUpTo(o.rows, dead, r);
    var n := CeilDiv(Waiting(q.rows, dead, false), LIMIT - Waiting(q.rows, dead, true));
    NewestIsSent(q, dead, r);
    PassesOfOlder(o, q, w, r + 1, n);
    if NothingLost(o) {
      PassesKeep(o, w, n);
    }
  }

  /** The bound for the newest of the rows. */
  lemma NewestIsSent(q: OutboxTable, dead: set<nat>, r: nat)
    requires |q.rows| == r + 1 && r !in dead && Waiting(q.rows, dead, true) < LIMIT
    ensures SentAfter(q, World(dead, {}), CeilDiv(Waiting(q.rows, dead, false), LIMIT - Waiting(q.rows, dead, true)), r)
  {
    var n := CeilDiv(Waiting(q.rows, dead, false), LIMIT - Waiting(q.rows, dead, true));
    PassesProgress(q, dead, n);
    PassesOfOlder(q, q, World(dead, {}), r + 1, n);
    NoneWaiting(Passes(q, World(dead, {}), n).rows, dead, r);
  }

  lemma WaitingIsPending(rows: seq<Row>, dead: set<nat>)
    ensures Waiting(rows, dead, true) <= |PendingIds(rows)|
  {
    WaitingIsCount(rows, dead, true);
    CountBoth(PendingIds(rows), dead);
  }

  /** LIMIT failing rows ahead of it keep a row out of the batch. */
  lemma OutOfReach(rows: seq<Row>, dead: set<nat>, r: nat)
    requires r < |rows| && rows[r].status.Pending? && Waiting(rows[..r], dead, true) >= LIMIT
    ensures r !in Batch(rows, LIMIT)
  {
    WaitingIsPending(rows[..r], dead);
    var k := PlaceOf(rows, r);
    OutsideBatch(rows, LIMIT, k);
  }

  /** The row waits behind LIMIT failing ones. */
  predicate Starving(rows: seq<Row>, dead: set<nat>, r: nat) {
    r < |rows| && rows[r].status.Pending? && Waiting(rows[..r], dead, true) >= LIMIT
  }

  lemma StarvedPass(o: OutboxTable, dead: set<nat>, r: nat)
    requires Starving(o.rows, dead, r)
    ensures Pass(o, World(dead, {})).rows[r] == o.rows[r]
  {
    OutOfReach(o.rows, dead, r);
    WorkOfRow(o, Batch(o.rows, LIMIT), World(dead, {}), r);
  }

  lemma FailingStayAhead(o: OutboxTable, dead: set<nat>, r: nat)
    requires r <= |o.rows|
    ensures Waiting(Pass(o, World(dead, {})).rows[..r], dead, true) == Waiting(o.rows[..r], dead, true)
  {
    var q := o.(rows := o.rows[..r]);
    PassOfOlder(o, q, World(dead, {}), r);
    PassProgress(q, dead);
  }

  lemma StarvingStays(o: OutboxTable, dead: set<nat>, r: nat)
    requires Starving(o.rows, dead, r)
    ensures Starving(Pass(o, World(dead, {})).rows, dead, r)
  {
    StarvedPass(o, dead, r);
    FailingStayAhead(o, dead, r);
  }

  lemma {:induction false} StarvedForever(o: OutboxTable, dead: set<nat>, r: nat, n: nat)
    requires Starving(o.rows, dead, r)
    ensures Starving(Passes(o, World(dead, {}), n).rows, dead, r)
  {
    if n > 0 {
      var before := Passes(o, World(dead, {}), n - 1);
      StarvedForever(o, dead, r, n - 1);
      StarvingStays(before, dead, r);
      assert Passes(o, World(dead, {}), n) == Pass(before, World(dead, {}));
    }
  }

  /** A publishable pending row is ever sent if and only if fewer than LIMIT older pending rows always fail. */
  lemma SentEventuallyIff(o: OutboxTable, dead: set<nat>, r: nat)
    requires r < |o.rows| && o.rows[r].status.Pending? && r !in dead
    ensures (exists n: nat :: SentAfter(o, World(dead, {}), n, r)) <==> Waiting(o.rows[..r], dead, true) < LIMIT
  {
    if Waiting(o.rows[..r], dead, true) < LIMIT {
      SentWithin(o, dead, r);
    } else {
      forall n: nat
        ensures !SentAfter(o, World(dead, {}), n, r)
      {
        StarvedForever(o, dead, r, n);
      }
    }
  }

  // ------------------------------------------------ a pass that does nothing

  lemma {:induction false} WorkAllDown(o: OutboxTable, batch: seq<nat>, w: World)
    requires forall i :: 0 <= i < |batch| ==> batch[i] < |o.rows| && batch[i] in w.down
    ensures Work(o, batch, w) == o
    decreases |batch|
  {
    if batch != [] {
      WorkAllDown(o, batch[..|batch| - 1], w);
    }
  }

  lemma {:induction false} WorkTopic(o: OutboxTable, batch: seq<nat>, w: World)
    requires forall i :: 0 <= i < |batch| ==> batch[i] < |o.rows|
    ensures |Work(o, batch, w).topic| == |o.topic| + Count(batch, w.down, false)
    decreases |batch|
  {
    if batch != [] {
      WorkTopic(o, batch[..|batch| - 1], w);
    }
  }

  lemma {:induction false} NoneCounted(ids: seq<nat>, dead: set<nat>)
    requires Count(ids, dead, false) == 0
    ensures forall i :: 0 <= i < |ids| ==> ids[i] in dead
  {
    if ids != [] {
      NoneCounted(ids[..|ids| - 1], dead);
    }
  }

  /** A pass does nothing exactly when its whole batch fails. */
  lemma StuckIff(o: OutboxTable, w: World)
    ensures Pass(o, w) == o <==> forall id :: id in Batch(o.rows, LIMIT) ==> id in w.down
  {
    var batch := Batch(o.rows, LIMIT);
    if forall id :: id in batch ==> id in w.down {
      WorkAllDown(o, batch, w);
    }
    if Pass(o, w) == o {
      WorkTopic(o, batch, w);
      NoneCounted(batch, w.down);
    }
  }
}

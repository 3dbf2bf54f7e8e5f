/**
 The order service alone, under any messages at all: concurrent handlers that read an order and
 later try a versioned write behave as if the winners had run one after the other.
 */
module OrderHistory {
  import opened Events
  import O = Orders

  datatype State = State(rows: seq<O.Row>, inflight: seq<O.Op>)

  datatype Step = Read(m: Message) | Write(op: nat) | Crash(op: nat)

  function Apply(s: State, step: Step): State {
    match step
    case Read(m) =>
      if m.body.order < |s.rows|
      then s.(inflight := s.inflight + [O.Op(m, s.rows[m.body.order].status, s.rows[m.body.order].version)]) else s
    case Write(i) =>
      if i < |s.inflight| then State(O.Finish(s.rows, s.inflight[i]), Without(s.inflight, i)) else s
    case Crash(i) =>
      if i < |s.inflight| then s.(inflight := Without(s.inflight, i)) else s
  }

  function Run(s: State, steps: seq<Step>): State
    decreases |steps|
  {
    if steps == [] then s else Apply(Run(s, steps[..|steps| - 1]), steps[|steps| - 1])
  }

  /** The step commits a write to the order. */
  predicate Wins(s: State, step: Step, order: nat) {
    && step.Write? && step.op < |s.inflight|
    && var op := s.inflight[step.op];
      && op.message.body.order == order < |s.rows|
      && O.Target(op.message.body, op.seen).Write?
      && op.version == s.rows[order].version
  }

  /** The events whose handlers won, in the order of their commits. */
  function Winners(s: State, steps: seq<Step>, order: nat): seq<Event>
    decreases |steps|
  {
    if steps == [] then []
    else
      var t, step := Run(s, steps[..|steps| - 1]), steps[|steps| - 1];
      Winners(s, steps[..|steps| - 1], order) + if Wins(t, step, order) then [t.inflight[step.op].message.body] else []
  }

  /** The handlers run one at a time, each on the status its predecessor left. */
  function Serial(status: O.OrderStatus, events: seq<Event>): O.OrderStatus
    decreases |events|
  {
    if events == [] then status
    else
      var before := Serial(status, events[..|events| - 1]);
      match O.Target(events[|events| - 1], before)
      case Keep => before
      case Write(after) => after
  }

  ghost predicate OpFresh(rows: seq<O.Row>, op: O.Op) {
    && op.message.body.order < |rows|
    && op.version <= rows[op.message.body.order].version
    && (op.version == rows[op.message.body.order].version ==> op.seen == rows[op.message.body.order].status)
  }

  /** What a handler saw is what is there, unless the version has moved on. */
  ghost predicate ReadsFresh(s: State) {
    forall i :: 0 <= i < |s.inflight| ==> OpFresh(s.rows, s.inflight[i])
  }

  lemma FreshStep(s: State, step: Step)
    requires ReadsFresh(s)
    ensures ReadsFresh(Apply(s, step)) && |Apply(s, step).rows| == |s.rows|
  {
    var s' := Apply(s, step);
    forall k | 0 <= k < |s'.inflight|
      ensures OpFresh(s'.rows, s'.inflight[k])
    {
      if !step.Read? && step.op < |s.inflight| {
        assert s'.inflight[k] == s.inflight[if k < step.op then k else k + 1];
        assert OpFresh(s.rows, s'.inflight[k]);
      }
    }
  }

  /** The effect of a write on one order, in terms of the status that is there now. */
  lemma FinishRow(rows: seq<O.Row>, op: O.Op, order: nat)
    requires OpFresh(rows, op) && order < |rows|
    ensures |O.Finish(rows, op)| == |rows|
    ensures var row, body := rows[order], op.message.body;
      O.Finish(rows, op)[order].status ==
      if body.order == order && op.version == row.version && O.Target(body, row.status).Write?
      then O.Target(body, row.status).status else row.status
  {
  }

  lemma WinStep(s: State, step: Step, order: nat)
    requires ReadsFresh(s) && order < |s.rows|
    ensures var row, row' := s.rows[order], Apply(s, step).rows[order];
      if Wins(s, step, order) then
        var body := s.inflight[step.op].message.body;
        row'.version == row.version + 1 && O.Target(body, row.status) == O.Write(row'.status)
      else row' == row
  {
    if step.Write? && step.op < |s.inflight| {
      assert OpFresh(s.rows, s.inflight[step.op]);
    }
  }

  lemma SerialNext(status: O.OrderStatus, events: seq<Event>, body: Event)
    ensures var before := Serial(status, events);
      Serial(status, events + [body]) ==
      if O.Target(body, before).Keep? then before else O.Target(body, before).status
  {
    assert (events + [body])[..|events|] == events;
  }

  /**
   For any interleaving of any number of handlers: the version counts the committed writes, and the
   status is what the winning handlers, run serially in commit order, would have left.
   */
  lemma {:induction false} HistoryIsSequential(s: State, steps: seq<Step>, order: nat)
    requires ReadsFresh(s) && order < |s.rows|
    ensures var t, won := Run(s, steps), Winners(s, steps, order);
      && ReadsFresh(t) && order < |t.rows|
      && t.rows[order].version == s.rows[order].version + |won|
      && t.rows[order].status == Serial(s.rows[order].status, won)
    decreases |steps|
  {
    if steps != [] {
      var before, step := steps[..|steps| - 1], steps[|steps| - 1];
      HistoryIsSequential(s, before, order);
      var t := Run(s, before);
      FreshStep(t, step);
      WinStep(t, step, order);
      var won := Winners(s, before, order);
      if Wins(t, step, order) {
        SerialNext(s.rows[order].status, won, t.inflight[step.op].message.body);
      } else {
        assert Winners(s, steps, order) == won;
      }
    }
  }

  /** Every link of the chain is in the transition table. */
  predicate IsPath(path: seq<O.OrderStatus>) {
    forall i :: 0 <= i < |path| - 1 ==> path[i + 1] in O.Allowed(path[i])
  }

  /** A non-empty chain of allowed transitions leads from one status to the other. */
  ghost predicate Leads(from: O.OrderStatus, to: O.OrderStatus) {
    exists path :: |path| >= 2 && path[0] == from && path[|path| - 1] == to && IsPath(path)
  }

  lemma PathLeads(path: seq<O.OrderStatus>)
    requires |path| >= 2 && IsPath(path)
    ensures Leads(path[0], path[|path| - 1])
  {
  }

  /** The three forward handlers look at the status they overwrite. */
  predicate Forward(body: Event) {
    body.PaymentCompleted? || body.StockReserved? || body.DeliveryStarted?
  }

  /** Every commit of a forward handler follows the transition table, if not always in a single step. */
  lemma ForwardCommitsFollowTheTable(s: State, step: Step, order: nat)
    requires ReadsFresh(s) && Wins(s, step, order) && Forward(s.inflight[step.op].message.body)
    ensures Leads(s.rows[order].status, Apply(s, step).rows[order].status)
  {
    WinStep(s, step, order);
    ForwardTargetLeads(s.inflight[step.op].message.body, s.rows[order].status);
  }

  lemma ForwardTargetLeads(body: Event, seen: O.OrderStatus)
    requires Forward(body) && O.Target(body, seen).Write?
    ensures Leads(seen, O.Target(body, seen).status)
  {
    match seen {
      case Pending => PathLeads([O.Pending, O.PaymentProcessing, O.StockReserving]);
      case StockReserving => PathLeads([O.StockReserving, O.DeliveryPreparing]);
      case DeliveryPreparing => PathLeads([O.DeliveryPreparing, O.Completed]);
    }
  }

  /** The first forward step is no single entry of the table: PAYMENT_PROCESSING is skipped. */
  lemma PaymentProcessingIsSkipped(order: nat, payment: nat, amount: int)
    ensures O.Target(PaymentCompleted(order, payment, amount), O.Pending) == O.Write(O.StockReserving)
    ensures O.StockReserving !in O.Allowed(O.Pending) && Leads(O.Pending, O.StockReserving)
  {
    PathLeads([O.Pending, O.PaymentProcessing, O.StockReserving]);
  }
}

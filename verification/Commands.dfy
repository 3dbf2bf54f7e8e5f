/** What customers ordered is what the tables hold, what is announced, and what is charged. */
module Commands {
  import opened Events
  import opened Saga
  import O = Orders
  import P = Payments
  import S = Stock

  /** What the customer agreed to; no handler changes it. */
  function Terms(row: O.Row): O.Command {
    O.Command(row.amount, row.quantity, row.key)
  }

  /** No two orders carry the same key, the empty one included. */
  ghost predicate KeysApart(rows: seq<O.Row>) {
    forall i, j :: 0 <= i < j < |rows| ==> rows[i].key != rows[j].key
  }

  /** The later table holds the same orders, on the same terms and at no older version. */
  ghost predicate TermsKept(rows: seq<O.Row>, rows': seq<O.Row>) {
    && |rows| <= |rows'|
    && forall o :: 0 <= o < |rows| ==> Terms(rows'[o]) == Terms(rows[o]) && rows'[o].version >= rows[o].version
  }

  lemma TermsStep(s: System, step: Step)
    ensures var rows, rows' := s.orders.db.rows, Apply(s, step).orders.db.rows;
      && TermsKept(rows, rows')
      && (|rows'| > |rows| ==>
            && step.Create? && |rows'| == |rows| + 1 && Terms(rows'[|rows|]) == step.cmd
            && step.cmd.amount > 0 && step.cmd.quantity > 0
            && forall o :: 0 <= o < |rows| ==> rows[o].key != step.cmd.key)
  {
    if step.Create? {
      O.CreateStores(s.orders.db, step.cmd, s.next, step.lookupFails, step.fault);
    }
  }

  lemma {:induction false} TermsRun(s: System, steps: seq<Step>)
    ensures TermsKept(s.orders.db.rows, Run(s, steps).orders.db.rows)
    decreases |steps|
  {
    if steps != [] {
      TermsRun(s, steps[..|steps| - 1]);
      TermsStep(Run(s, steps[..|steps| - 1]), steps[|steps| - 1]);
    }
  }

  /** In every run no two orders share their idempotency key. */
  lemma {:induction false} KeysAreUnique(start: S.Product, steps: seq<Step>)
    ensures KeysApart(Run(Init(start), steps).orders.db.rows)
    decreases |steps|
  {
    if steps != [] {
      KeysAreUnique(start, steps[..|steps| - 1]);
      TermsStep(Run(Init(start), steps[..|steps| - 1]), steps[|steps| - 1]);
    }
  }

  /** The command was given in the run. */
  predicate Given(steps: seq<Step>, cmd: O.Command) {
    exists k :: 0 <= k < |steps| && steps[k].Create? && steps[k].cmd == cmd
  }

  lemma GivenEarlier(steps: seq<Step>, cmd: O.Command)
    requires steps != [] && Given(steps[..|steps| - 1], cmd)
    ensures Given(steps, cmd)
  {
    var before := steps[..|steps| - 1];
    var k :| 0 <= k < |before| && before[k].Create? && before[k].cmd == cmd;
    assert steps[k] == before[k];
  }

  /** Every order of every run was commanded, with positive amount and quantity, and is stored as commanded. */
  lemma {:induction false} EveryOrderWasCommanded(start: S.Product, steps: seq<Step>, order: nat)
    requires order < |Run(Init(start), steps).orders.db.rows|
    ensures var row := Run(Init(start), steps).orders.db.rows[order];
      Given(steps, Terms(row)) && row.amount > 0 && row.quantity > 0
    decreases |steps|
  {
    if steps != [] {
      var before := Run(Init(start), steps[..|steps| - 1]);
      TermsStep(before, steps[|steps| - 1]);
      if order < |before.orders.db.rows| {
        EveryOrderWasCommanded(start, steps[..|steps| - 1], order);
        GivenEarlier(steps, Terms(before.orders.db.rows[order]));
      }
    }
  }

  lemma PaidAmount(start: S.Product, s: System, i: nat)
    requires Inv(start, s) && i < |s.payment.db.rows|
    ensures var row := s.payment.db.rows[i];
      row.order < |s.orders.db.rows| && row.amount == s.orders.db.rows[row.order].amount
  {
    var row := s.payment.db.rows[i];
    assert PaymentRowInv(s.orders.db.outbox, s.inventory.db.outbox, row);
    assert CreatedInv(s.orders.db.rows, s.orders.db.outbox[row.key.event]);
  }

  /** Nobody pays anything but the amount of a command that was given. */
  lemma {:induction false} EveryPaymentWasCommanded(start: S.Product, steps: seq<Step>, i: nat)
    requires ValidStart(start) && i < |Run(Init(start), steps).payment.db.rows|
    ensures var s := Run(Init(start), steps);
      exists k :: 0 <= k < |steps| && steps[k].Create? && steps[k].cmd.amount == s.payment.db.rows[i].amount
    ensures var s := Run(Init(start), steps);
      var order := s.payment.db.rows[i].order;
      order < |s.orders.db.rows| && s.payment.db.rows[i].amount == s.orders.db.rows[order].amount
  {
    var s := Run(Init(start), steps);
    InvRun(start, steps);
    PaidAmount(start, s, i);
    EveryOrderWasCommanded(start, steps, s.payment.db.rows[i].order);
  }
}

/**
 The saga's event graph on its own: which event causes which, through whose handler, and how many
 events and handler executions one order can cause when each subscriber handles each event once.
 */
module Workflow {
  import opened Events
  import opened Saga
  import O = Orders
  import P = Payments
  import S = Stock
  import D = Deliveries

  /** The topics each service's consumer group reads. */
  predicate Subscribes(party: Party, body: Event) {
    match party
    case OrderParty => O.Consumes(body)
    case PaymentParty => P.Consumes(body)
    case InventoryParty => S.Consumes(body)
    case DeliveryParty => D.Consumes(body)
  }

  /** The one subscriber whose handler answers the event with another event. */
  predicate Answers(party: Party, body: Event) {
    match party
    case OrderParty => false
    case PaymentParty => body.OrderCreated? || body.StockReservationFailed?
    case InventoryParty => body.PaymentCompleted?
    case DeliveryParty => body.StockReserved?
  }

  predicate Follows(cause: Event, body: Event) {
    && cause.order == body.order
    && match cause
       case OrderCreated(_, _, _) => body.PaymentCompleted? || body.PaymentFailed?
       case PaymentCompleted(_, _, _) => body.StockReserved? || body.StockReservationFailed?
       case StockReserved(_, _, _) => body.DeliveryStarted?
       case StockReservationFailed(_, _) => body.PaymentRefunded?
       case _ => false
  }

  /** How many events lie between an event and its order's order.created. */
  function Depth(body: Event): (d: nat)
    ensures d < 4
  {
    match body
    case OrderCreated(_, _, _) => 0
    case PaymentCompleted(_, _, _) => 1
    case PaymentFailed(_) => 1
    case StockReserved(_, _, _) => 2
    case StockReservationFailed(_, _) => 2
    case _ => 3
  }

  type Handled = set<(Party, Message)>

  ghost predicate Caused(events: set<Message>, handled: Handled, m: Message) {
    exists party, c :: c in events && (party, c) in handled && Answers(party, c.body) && Follows(c.body, m.body)
  }

  ghost predicate Answered(events: set<Message>, m: Message) {
    exists a :: a in events && Follows(m.body, a.body)
  }

  predicate Rivals(a: Event, b: Event) {
    a.order == b.order && Depth(a) == Depth(b)
  }

  /** Events of n orders, below `next`, in cause-and-effect order: what every exactly-once run keeps. */
  ghost predicate Flow(events: set<Message>, handled: Handled, n: nat, next: EventId) {
    && (forall m :: m in events ==> m.id < next && m.body.order < n)
    && (forall h :: h in handled ==> h.1 in events && Subscribes(h.0, h.1.body))
    && (forall m :: m in events && !m.body.OrderCreated? ==> Caused(events, handled, m))
    && (forall h :: h in handled && Answers(h.0, h.1.body) ==> Answered(events, h.1))
    && (forall a, b :: a in events && b in events && Rivals(a.body, b.body) ==> a == b)
    && (forall a, b :: a in events && b in events && a.id == b.id ==> a == b)
  }

  /** Rival answers have rival causes, and an event has one answering party only. */
  lemma RivalCauses(p: Party, c: Event, r: Event, q: Party, m: Event, body: Event)
    requires Answers(p, c) && Follows(c, r) && Answers(q, m) && Follows(m, body) && Rivals(r, body)
    ensures Rivals(c, m) && (c == m ==> p == q)
  {
  }

  lemma CauseOf(events: set<Message>, handled: Handled, n: nat, next: EventId, m: Message, r: Message, body: Event)
    returns (p: Party, c: Message)
    requires Flow(events, handled, n, next) && r in events
    requires Follows(m.body, body) && Rivals(r.body, body)
    ensures c in events && (p, c) in handled && Answers(p, c.body) && Follows(c.body, r.body)
  {
    assert Caused(events, handled, r);
    p, c :| c in events && (p, c) in handled && Answers(p, c.body) && Follows(c.body, r.body);
  }

  /** A rival of an answer to m was itself caused by m, so m has been handled. */
  lemma RivalMeansHandled(events: set<Message>, handled: Handled, n: nat, next: EventId, party: Party, m: Message,
                          body: Event, r: Message)
    requires Flow(events, handled, n, next) && m in events && r in events
    requires Answers(party, m.body) && Follows(m.body, body) && Rivals(r.body, body)
    ensures (party, m) in handled
  {
    var p, c := CauseOf(events, handled, n, next, m, r, body);
    RivalCauses(p, c.body, r.body, party, m.body, body);
  }

  /** An event not yet handled by the party that answers it has no answer, nor any rival of one. */
  lemma NoRival(events: set<Message>, handled: Handled, n: nat, next: EventId, party: Party, m: Message, body: Event)
    requires Flow(events, handled, n, next) && m in events && (party, m) !in handled
    requires Answers(party, m.body) && Follows(m.body, body)
    ensures forall r :: r in events ==> !Rivals(r.body, body)
  {
    forall r | r in events
      ensures !Rivals(r.body, body)
    {
      if Rivals(r.body, body) {
        RivalMeansHandled(events, handled, n, next, party, m, body, r);
      }
    }
  }

  /** No handler answers with these two. */
  lemma NeverFollows(events: set<Message>, handled: Handled, n: nat, next: EventId, m: Message)
    requires Flow(events, handled, n, next) && m in events
    ensures !m.body.StockRestored? && !m.body.DeliveryFailed?
  {
    if !m.body.OrderCreated? {
      assert Caused(events, handled, m);
      var party, c :| c in events && (party, c) in handled && Answers(party, c.body) && Follows(c.body, m.body);
    }
  }

  lemma CausedGrows(events: set<Message>, handled: Handled, events': set<Message>, handled': Handled, m: Message)
    requires events <= events' && handled <= handled' && Caused(events, handled, m)
    ensures Caused(events', handled', m)
  {
  }

  lemma AnsweredGrows(events: set<Message>, events': set<Message>, m: Message)
    requires events <= events' && Answered(events, m)
    ensures Answered(events', m)
  {
  }

  /** The causal half of Flow survives growth, given causes for the new events and answers to the new executions. */
  lemma FlowGrows(events: set<Message>, handled: Handled, n: nat, next: EventId,
                  events': set<Message>, handled': Handled, n': nat, next': EventId)
    requires Flow(events, handled, n, next) && events <= events' && handled <= handled'
    requires forall m :: m in events' ==> m.id < next' && m.body.order < n'
    requires forall h :: h in handled' ==> h.1 in events' && Subscribes(h.0, h.1.body)
    requires forall m :: m in events' - events && !m.body.OrderCreated? ==> Caused(events', handled', m)
    requires forall h :: h in handled' - handled && Answers(h.0, h.1.body) ==> Answered(events', h.1)
    requires forall a, b :: a in events' && b in events' && Rivals(a.body, b.body) ==> a == b
    requires forall a, b :: a in events' && b in events' && a.id == b.id ==> a == b
    ensures Flow(events', handled', n', next')
  {
    forall m | m in events' && !m.body.OrderCreated?
      ensures Caused(events', handled', m)
    {
      if m in events {
        CausedGrows(events, handled, events', handled', m);
      }
    }
    forall h | h in handled' && Answers(h.0, h.1.body)
      ensures Answered(events', h.1)
    {
      if h in handled {
        AnsweredGrows(events, events', h.1);
      }
    }
  }

  lemma AnswerLinks(events: set<Message>, handled: Handled, party: Party, m: Message, a: Message)
    requires m in events && a in events && (party, m) in handled && Answers(party, m.body) && Follows(m.body, a.body)
    ensures Caused(events, handled, a) && Answered(events, m)
    ensures Subscribes(party, m.body) && a.body.order == m.body.order && !a.body.OrderCreated?
  {
  }

  lemma StillUnique(events: set<Message>, a: Message)
    requires forall m :: m in events ==> m.id < a.id && !Rivals(m.body, a.body)
    requires forall m, n :: m in events && n in events && Rivals(m.body, n.body) ==> m == n
    requires forall m, n :: m in events && n in events && m.id == n.id ==> m == n
    ensures forall m, n :: m in events + {a} && n in events + {a} && Rivals(m.body, n.body) ==> m == n
    ensures forall m, n :: m in events + {a} && n in events + {a} && m.id == n.id ==> m == n
  {
  }

  lemma FlowOpened(events: set<Message>, handled: Handled, n: nat, next: EventId, m: Message)
    requires Flow(events, handled, n, next) && m.id == next && m.body.OrderCreated? && m.body.order == n
    ensures Flow(events + {m}, handled, n + 1, next + 1)
  {
    FlowGrows(events, handled, n, next, events + {m}, handled, n + 1, next + 1);
  }

  lemma FlowAnswered(events: set<Message>, handled: Handled, n: nat, next: EventId, party: Party, m: Message,
                     a: Message)
    requires Flow(events, handled, n, next) && m in events && (party, m) !in handled
    requires Answers(party, m.body) && Follows(m.body, a.body) && a.id == next
    ensures Flow(events + {a}, handled + {(party, m)}, n, next + 1)
  {
    var handled' := handled + {(party, m)};
    NoRival(events, handled, n, next, party, m, a.body);
    AnswerLinks(events + {a}, handled', party, m, a);
    StillUnique(events, a);
    FlowGrows(events, handled, n, next, events + {a}, handled', n, next + 1);
  }

  lemma FlowHeard(events: set<Message>, handled: Handled, n: nat, next: EventId, party: Party, m: Message,
                  next': EventId)
    requires Flow(events, handled, n, next) && m in events && Subscribes(party, m.body) && !Answers(party, m.body)
    requires next <= next'
    ensures Flow(events, handled + {(party, m)}, n, next')
  {
    FlowGrows(events, handled, n, next, events, handled + {(party, m)}, n, next');
  }

  // ------------------------------------------------ counting

  /** A set whose elements have distinct numbers below a bound is no larger than the bound. */
  lemma {:induction false} DistinctBelow<T(!new)>(xs: set<T>, number: T -> nat, bound: nat)
    requires forall x :: x in xs ==> number(x) < bound
    requires forall x, y :: x in xs && y in xs && number(x) == number(y) ==> x == y
    ensures |xs| <= bound
    decreases bound
  {
    if top :| top in xs && number(top) == bound - 1 {
      DistinctBelow(xs - {top}, number, bound - 1);
    } else if bound > 0 {
      DistinctBelow(xs, number, bound - 1);
    } else {
      assert xs == {};
    }
  }

  /** The six executions an order can cause: charge, two on its outcome, two on the stock outcome, and one last. */
  function Execution(h: (Party, Message)): (k: nat)
    ensures k < 6
  {
    match Depth(h.1.body)
    case 0 => 0
    case 1 => if h.0.OrderParty? then 1 else 2
    case 2 => if h.0.OrderParty? then 3 else 4
    case _ => 5
  }

  lemma SameParty(m: Message, p: Party, q: Party)
    requires Subscribes(p, m.body) && Subscribes(q, m.body) && Execution((p, m)) == Execution((q, m))
    ensures p == q
  {
  }

  lemma SameDepth(g: (Party, Message), h: (Party, Message))
    requires Execution(g) == Execution(h)
    ensures Depth(g.1.body) == Depth(h.1.body)
  {
  }

  lemma ExecutionsDiffer(events: set<Message>, handled: Handled, n: nat, next: EventId,
                         g: (Party, Message), h: (Party, Message))
    requires Flow(events, handled, n, next) && g in handled && h in handled
    requires g.1.body.order == h.1.body.order && Execution(g) == Execution(h)
    ensures g == h
  {
    SameDepth(g, h);
    assert Rivals(g.1.body, h.1.body);
    SameParty(g.1, g.0, h.0);
  }

  /** Each order causes at most 4 events and 6 handler executions. */
  lemma PerOrder(events: set<Message>, handled: Handled, n: nat, next: EventId, order: nat)
    requires Flow(events, handled, n, next)
    ensures |set m | m in events && m.body.order == order| <= 4
    ensures |set h | h in handled && h.1.body.order == order| <= 6
  {
    DistinctBelow(set m | m in events && m.body.order == order, (m: Message) => Depth(m.body), 4);
    var hs := set h | h in handled && h.1.body.order == order;
    forall g, h | g in hs && h in hs && Execution(g) == Execution(h)
      ensures g == h
    {
      ExecutionsDiffer(events, handled, n, next, g, h);
    }
    DistinctBelow(hs, (h: (Party, Message)) => Execution(h), 6);
  }

  function ExecutionNumber(h: (Party, Message)): nat {
    6 * h.1.body.order + Execution(h)
  }

  lemma SameNumber(g: (Party, Message), h: (Party, Message))
    requires ExecutionNumber(g) == ExecutionNumber(h)
    ensures g.1.body.order == h.1.body.order && Execution(g) == Execution(h)
  {
  }

  /** All orders together cause at most 4 n events. */
  lemma EventsInTotal(events: set<Message>, handled: Handled, n: nat, next: EventId)
    requires Flow(events, handled, n, next)
    ensures |events| <= 4 * n
  {
    DistinctBelow(events, (m: Message) => 4 * m.body.order + Depth(m.body), 4 * n);
  }

  /** All orders together cause at most 6 n handler executions. */
  lemma ExecutionsInTotal(events: set<Message>, handled: Handled, n: nat, next: EventId)
    requires Flow(events, handled, n, next)
    ensures |handled| <= 6 * n
  {
    forall g, h | g in handled && h in handled && ExecutionNumber(g) == ExecutionNumber(h)
      ensures g == h
    {
      SameNumber(g, h);
      ExecutionsDiffer(events, handled, n, next, g, h);
    }
    DistinctBelow(handled, (h: (Party, Message)) => ExecutionNumber(h), 6 * n);
  }
}

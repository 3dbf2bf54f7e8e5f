/** The messages the four services exchange, and the vocabulary every handler shares. */
module Events {

  /** A fresh UUID per event is modelled as a number that is never issued twice. */
  type EventId = nat

  datatype StockFailure = ProductNotFound | InsufficientStock | VersionConflict

  /** Event bodies. Row identifiers are positions in the owning table. */
  datatype Event =
    | OrderCreated(order: nat, amount: int, quantity: int)
    | PaymentCompleted(order: nat, payment: nat, amount: int)
    | PaymentFailed(order: nat)
    | PaymentRefunded(order: nat, payment: nat, amount: int)
    | StockReserved(order: nat, reservation: nat, quantity: int)
    | StockReservationFailed(order: nat, reason: StockFailure)
    | StockRestored(order: nat, reservation: nat, quantity: int)
    | DeliveryStarted(order: nat, delivery: nat)
    | DeliveryFailed(order: nat)

  /** The Kafka topics, named after the event type they carry. */
  datatype Topic =
    | OrderCreatedV1 | PaymentCompletedV1 | PaymentFailedV1 | PaymentRefundedV1 | StockReservedV1
    | StockReservationFailedV1 | StockRestoredV1 | DeliveryStartedV1 | DeliveryFailedV1

  function TopicOf(body: Event): Topic {
    match body
    case OrderCreated(_, _, _) => OrderCreatedV1
    case PaymentCompleted(_, _, _) => PaymentCompletedV1
    case PaymentFailed(_) => PaymentFailedV1
    case PaymentRefunded(_, _, _) => PaymentRefundedV1
    case StockReserved(_, _, _) => StockReservedV1
    case StockReservationFailed(_, _) => StockReservationFailedV1
    case StockRestored(_, _, _) => StockRestoredV1
    case DeliveryStarted(_, _) => DeliveryStartedV1
    case DeliveryFailed(_) => DeliveryFailedV1
  }

  /** Every kind of event has a topic of its own. */
  lemma TopicSaysKind(a: Event, b: Event)
    ensures TopicOf(a) == TopicOf(b) <==>
            || (a.OrderCreated? && b.OrderCreated?) || (a.PaymentCompleted? && b.PaymentCompleted?)
            || (a.PaymentFailed? && b.PaymentFailed?) || (a.PaymentRefunded? && b.PaymentRefunded?)
            || (a.StockReserved? && b.StockReserved?) || (a.StockReservationFailed? && b.StockReservationFailed?)
            || (a.StockRestored? && b.StockRestored?) || (a.DeliveryStarted? && b.DeliveryStarted?)
            || (a.DeliveryFailed? && b.DeliveryFailed?)
  {
  }

  datatype Message = Message(id: EventId, body: Event)

  /** The outbox table of one service: the events inserted so far, by event identifier. */
  type Outbox = map<EventId, Event>

  /** The outbox holds an event of the topic for the order. */
  ghost predicate Has(outbox: Outbox, topic: Topic, order: nat) {
    exists e :: e in outbox && TopicOf(outbox[e]) == topic && outbox[e].order == order
  }

  /** No order has two events of the topic. */
  ghost predicate AtMostOne(outbox: Outbox, topic: Topic) {
    forall e, f | e in outbox && f in outbox && TopicOf(outbox[e]) == topic == TopicOf(outbox[f]) ::
      outbox[e].order == outbox[f].order ==> e == f
  }

  ghost predicate Grows(a: Outbox, b: Outbox) {
    forall e :: e in a ==> e in b && b[e] == a[e]
  }

  /** An idempotency key: the order and the event that caused the row (printed form: module Keys). */
  datatype Key = Key(order: nat, event: EventId)

  /**
   Where an execution of a handler stops: the named statement reports an error or the
   process dies just before it. AfterCommit dies (or loses the commit's answer) once the
   transaction is durable. AtGateway is the gateway's refusal to refund. At most one of these ends
   an execution; one that names a statement the handler does not have is no fault.
   */
  datatype Fault = NoFault | AtLookup | AtBegin | AtGateway | AtRead | AtWrite | AtOutbox | AtCommit | AfterCommit

  /** The transaction's own statements, from the outbox insert on, reach the commit. */
  predicate Commits(fault: Fault) {
    fault != AtOutbox && fault != AtCommit
  }

  /** What a handler leaves in its database, and whether it returned without error. */
  datatype Reply<+Db> = Reply(db: Db, ok: bool)

  /** The list with one position left out. */
  function Without<T>(xs: seq<T>, i: nat): seq<T>
    requires i < |xs|
  {
    xs[..i] + xs[i + 1..]
  }
}

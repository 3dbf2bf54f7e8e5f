/** The Redis key store and the check-handle-reserve wrapper around every handler. */
module Idempotency {
  import opened Events

  /** Errors of the store are ignored by the wrappers: a failed check reads "not processed". */
  datatype Redis = Redis(checkFails: bool, reserveFails: bool)

  /** One service: its database and the event identifiers its store holds. */
  datatype Node<+Db> = Node(db: Db, done: set<EventId>)

  /** The wrapper, given the reply the handler would make on the node's database. */
  function Guard<Db>(node: Node<Db>, id: EventId, redis: Redis, reply: Reply<Db>): Node<Db> {
    if !redis.checkFails && id in node.done then node
    else Node(reply.db, if reply.ok && !redis.reserveFails then node.done + {id} else node.done)
  }

  /** The wrapper drops the event without running the handler. */
  predicate Skips<Db>(node: Node<Db>, id: EventId, redis: Redis) {
    !redis.checkFails && id in node.done
  }

  /** The handler runs unless the check finds the event; the event is remembered once the handler succeeded. */
  lemma GuardIff<Db>(node: Node<Db>, id: EventId, redis: Redis, reply: Reply<Db>, other: EventId)
    ensures var node' := Guard(node, id, redis, reply);
      && (id in node.done && !redis.checkFails ==> node' == node)
      && (id !in node.done || redis.checkFails ==> node'.db == reply.db)
      && (id in node'.done <==> id in node.done || (reply.ok && !redis.reserveFails))
      && (other != id ==> (other in node'.done <==> other in node.done))
  {
  }

  class Store {
    var keys: set<EventId>

    constructor ()
      ensures keys == {}
    {
      keys := {};
    }

    method IsProcessed(id: EventId, down: bool) returns (processed: bool)
      ensures processed <==> !down && id in keys
    {
      processed := !down && id in keys;
    }

    /** SETNX: false when the key was already there. */
    method Reserve(id: EventId, down: bool) returns (reserved: bool)
      modifies this
      ensures keys == if down then old(keys) else old(keys) + {id}
      ensures reserved <==> !down && id !in old(keys)
    {
      reserved := !down && id !in keys;
      if !down {
        keys := keys + {id};
      }
    }

    /** DEL, and equally the expiry of the key's time to live. */
    method Release(id: EventId)
      modifies this
      ensures keys == old(keys) - {id}
    {
      keys := keys - {id};
    }
  }
}

/**
  The context map (server/src/classes/contexts/contextMap.ts) as objects:
  the shared channel, registered contexts with their pending correlation
  entries, one consumer per registered queue, context stores, remote
  proxies, and the cache of context stores. Each consumer is proved against
  `Protocol.Handle` and `Protocol.DeliverNext`.
 */
module ContextMaps {
  import opened Wrappers
  import opened Values
  import opened NetworkIds
  import opened Protocol

  /** The one channel every store uses (`defaultChannel`, with `prefetch(1)`). */
  class Channel {
    var sent: seq<Outgoing>
    var decisions: seq<Decision>
    /** Queues declared with `assertQueue`. */
    var declared: set<string>
    /** Consumers started with `consume`, in order. */
    var consumers: seq<Consumer>

    constructor ()
      ensures sent == [] && decisions == [] && declared == {} && consumers == []
    {
      sent, decisions, declared, consumers := [], [], {}, [];
    }

    function History(): Log
      reads this
    {
      Log(sent, decisions)
    }

    method SendToQueue(o: Outgoing)
      modifies this`sent
      ensures sent == old(sent) + [o]
    {
      sent := sent + [o];
    }

    method Decide(d: Decision)
      modifies this`decisions
      ensures decisions == old(decisions) + [d]
    {
      decisions := decisions + [d];
    }

    method AssertQueue(name: string)
      modifies this`declared
      ensures declared == old(declared) + {name}
    {
      declared := declared + {name};
    }

    method Consume(consumer: Consumer)
      modifies this`consumers
      ensures consumers == old(consumers) + [consumer]
    {
      consumers := consumers + [consumer];
    }
  }

  /** A registered context: its network id, what it answers, and the requests it is waiting on. */
  class RegisteredContext {
    const id: string
    const behaviour: Behaviour
    var callbacks: map<string, Continuation>
    var resolutions: seq<Resolution>
    var deliveries: seq<Delivery>

    constructor (id: string, behaviour: Behaviour)
      ensures this.id == id && this.behaviour == behaviour
      ensures callbacks == map[] && resolutions == [] && deliveries == []
    {
      this.id, this.behaviour := id, behaviour;
      callbacks, resolutions, deliveries := map[], [], [];
    }
  }

  /** The consumer `register` starts on a registered context's queue, with its `eventStreamQueues`. */
  class Consumer {
    const queueName: string
    const context: RegisteredContext
    const channel: Channel
    var queues: map<Value, StreamQueue>
    var halted: bool

    constructor (queueName: string, context: RegisteredContext, channel: Channel)
      ensures this.queueName == queueName && this.context == context && this.channel == channel
      ensures queues == map[] && !halted
    {
      this.queueName, this.context, this.channel := queueName, context, channel;
      queues, halted := map[], false;
    }

    /** The registered context and this consumer, as a protocol node. */
    function Snapshot(): Node
      reads this, context
    {
      Node(context.id, context.callbacks, queues, context.resolutions, context.deliveries, halted)
    }

    method Throw(fault: Fault) returns (outcome: Disposition)
      modifies this`halted
      ensures halted && outcome == Threw(fault)
    {
      halted := true;
      outcome := Threw(fault);
    }

    /** The `consume` callback, for one message. */
    method Handle(m: Message) returns (outcome: Disposition)
      modifies this, context, channel`sent, channel`decisions
      ensures Protocol.Handle(context.behaviour, old(Snapshot()), old(channel.History()), m)
              == Handled(Snapshot(), channel.History(), outcome)
    {
      if halted {
        outcome := NotDelivered;
      } else if m.kind == EventStreamRequestType {
        outcome := ServeStreamRequest(m);
      } else if m.kind == QueryRequestType {
        outcome := ServeQueryRequest(m);
      } else if m.kind == EventStreamResponseType {
        outcome := QueueStreamResponse(m);
      } else if m.kind == QueryResponseType {
        outcome := ResolveQueryResponse(m);
      } else {
        outcome := Throw(Thrown(UnknownQueueType));
      }
    }

    /** EVENT_STREAM_REQUEST: the `streamEvents` callback sends each replayed event back, then the request is settled. */
    method ServeStreamRequest(m: Message) returns (outcome: Disposition)
      modifies channel`sent, channel`decisions
      ensures Protocol.HandleStreamRequest(context.behaviour, Snapshot(), old(channel.History()), m)
              == Handled(Snapshot(), channel.History(), outcome)
    {
      var replay := context.behaviour.replay(m.body);
      SendReplayed(m.replyTo, m.correlationId, replay.events);
      if replay.failed {
        channel.Decide(Nack(m.tag, false));
        outcome := Nacked;
      } else {
        channel.Decide(Ack(m.tag));
        outcome := Acked;
      }
    }

    /**
      The callback `streamEvents` is given, for each replayed event in turn:
      send it to `replyTo` as an EVENT_STREAM_RESPONSE. An undefined event
      throws while being encoded, before it is sent.
     */
    method SendReplayed(replyTo: string, correlationId: string, events: seq<Value>)
      modifies channel`sent
      ensures channel.sent == old(channel.sent) + StreamResponses(replyTo, correlationId, Sendable(events))
    {
      var i := 0;
      while i < |events|
        invariant 0 <= i <= |events|
        invariant channel.sent == old(channel.sent) + StreamResponses(replyTo, correlationId, Sendable(events[..i]))
      {
        if events[i] != Undefined {
          channel.SendToQueue(Outgoing(replyTo, events[i], correlationId, None, EventStreamResponseType));
        }
        SendableSnoc(replyTo, correlationId, events, i);
        i := i + 1;
      }
      assert events[..i] == events;
    }

    /** QUERY_REQUEST: ask the context, reply and ack, or nack. */
    method ServeQueryRequest(m: Message) returns (outcome: Disposition)
      modifies this`halted, channel`sent, channel`decisions
      ensures Protocol.HandleQueryRequest(context.behaviour, old(Snapshot()), old(channel.History()), m)
              == Handled(Snapshot(), channel.History(), outcome)
    {
      if Nullish(m.body) {
        outcome := Throw(TypeError("type"));
        return;
      }
      var response := context.behaviour.query(Get(m.body, "type"), Get(m.body, "payload"));
      if response.Failure? || response.value == Undefined {
        // an undefined answer throws while being encoded, before the reply is sent
        channel.Decide(Nack(m.tag, false));
        outcome := Nacked;
      } else {
        channel.SendToQueue(Outgoing(m.replyTo, response.value, m.correlationId, None, QueryResponseType));
        channel.Decide(Ack(m.tag));
        outcome := Acked;
      }
    }

    /** EVENT_STREAM_RESPONSE: push the event onto the queue for its type, created on first use. */
    method QueueStreamResponse(m: Message) returns (outcome: Disposition)
      modifies this`queues, this`halted, channel`decisions
      ensures Protocol.HandleStreamResponse(old(Snapshot()), old(channel.History()), m)
              == Handled(Snapshot(), channel.History(), outcome)
    {
      if m.correlationId !in context.callbacks {
        outcome := Throw(Thrown(StreamIdNotFound));
        return;
      }
      if Nullish(m.body) {
        outcome := Throw(TypeError("type"));
        return;
      }
      var t := Get(m.body, "type");
      if t !in queues {
        queues := queues[t := StreamQueue(m.correlationId, [])];
      }
      queues := queues[t := queues[t].(pending := queues[t].pending + [m.body])];
      channel.Decide(Ack(m.tag));
      outcome := Acked;
    }

    /** QUERY_RESPONSE: take the pending entry out of the map and resolve it. */
    method ResolveQueryResponse(m: Message) returns (outcome: Disposition)
      modifies this`halted, context`callbacks, context`resolutions, channel`decisions
      ensures Protocol.HandleQueryResponse(old(Snapshot()), old(channel.History()), m)
              == Handled(Snapshot(), channel.History(), outcome)
    {
      if m.correlationId !in context.callbacks {
        outcome := Throw(Thrown(QueryIdNotFound));
        return;
      }
      var entry := context.callbacks[m.correlationId];
      context.callbacks := context.callbacks - {m.correlationId};
      if entry.Subscriber? {
        outcome := Throw(TypeError("resolve"));
        return;
      }
      context.resolutions := context.resolutions + [Resolution(m.correlationId, m.body)];
      channel.Decide(Ack(m.tag));
      outcome := Acked;
    }

    /** One turn of the worker of the stream queue for event type `t`. */
    method DeliverNext(t: Value)
      modifies this`queues, context`deliveries
      ensures Snapshot() == Protocol.DeliverNext(old(Snapshot()), t)
    {
      if t !in queues || queues[t].pending == [] {
        return;
      }
      var q := queues[t];
      var event := q.pending[0];
      queues := queues[t := q.(pending := q.pending[1..])];
      if q.correlationId in context.callbacks && context.callbacks[q.correlationId].Subscriber? {
        context.deliveries := context.deliveries + [Delivered(context.callbacks[q.correlationId].callback, event)];
      } else {
        context.deliveries := context.deliveries + [Undeliverable(q.correlationId, event)];
      }
    }
  }

  /** What `getRemote` returns: requests to `remoteQueueName`, answered to `replyToContext`. */
  class RemoteContext {
    const channel: Channel
    const remoteQueueName: string
    const replyToContext: RegisteredContext

    constructor (channel: Channel, remoteQueueName: string, replyToContext: RegisteredContext)
      ensures this.channel == channel && this.remoteQueueName == remoteQueueName && this.replyToContext == replyToContext
    {
      this.channel, this.remoteQueueName, this.replyToContext := channel, remoteQueueName, replyToContext;
    }

    /**
      `streamEvents(params)` under the correlation id `correlationId` (a fresh
      uuid in the source): the callback waits in the caller's map, and one
      EVENT_STREAM_REQUEST goes out.
     */
    method StreamEvents(params: StreamParams, correlationId: string)
      modifies replyToContext`callbacks, channel`sent
      ensures replyToContext.callbacks == old(replyToContext.callbacks)[correlationId := Subscriber(params.callback)]
      ensures channel.sent == old(channel.sent) + [StreamRequestTo(remoteQueueName, replyToContext.id, params, correlationId)]
    {
      replyToContext.callbacks := replyToContext.callbacks[correlationId := Subscriber(params.callback)];
      channel.SendToQueue(StreamRequestTo(remoteQueueName, replyToContext.id, params, correlationId));
    }

    /**
      The sending half of `queryStorage(query, payload)`: a resolver waits in
      the caller's map, and one QUERY_REQUEST goes out; the reply arrives
      later through the caller's consumer.
     */
    method QueryStorage(query: string, payload: Value, correlationId: string)
      modifies replyToContext`callbacks, channel`sent
      ensures replyToContext.callbacks == old(replyToContext.callbacks)[correlationId := Resolver]
      ensures channel.sent == old(channel.sent) + [QueryRequestTo(remoteQueueName, replyToContext.id, query, payload, correlationId)]
    {
      replyToContext.callbacks := replyToContext.callbacks[correlationId := Resolver];
      channel.SendToQueue(QueryRequestTo(remoteQueueName, replyToContext.id, query, payload, correlationId));
    }
  }

  /** A context store: the registered contexts of one store id. */
  class ContextStore {
    const id: string
    const channel: Channel
    var registeredContexts: set<RegisteredContext>
    var registeredContextsById: map<string, RegisteredContext>

    /** Every context reachable by id is registered, under its own network id. */
    ghost predicate Valid()
      reads this
    {
      forall k :: k in registeredContextsById ==>
        registeredContextsById[k] in registeredContexts && registeredContextsById[k].id == k
    }

    constructor (id: string, channel: Channel)
      ensures this.id == id && this.channel == channel
      ensures registeredContexts == {} && registeredContextsById == map[]
      ensures Valid()
    {
      this.id, this.channel := id, channel;
      registeredContexts, registeredContextsById := {}, map[];
    }

    /**
      `register({id: contextId, context})`: a new registered context under
      its network id, recorded in both collections, with its queue declared
      and a consumer started on it.
     */
    method Register(contextType: Option<string>, contextId: Option<string>, behaviour: Behaviour)
      returns (registered: RegisteredContext, consumer: Consumer)
      requires Valid()
      modifies this, channel`declared, channel`consumers
      ensures Valid()
      ensures fresh(registered) && fresh(consumer)
      ensures registered.id == GetNetworkId(id, contextType, contextId) && registered.behaviour == behaviour
      ensures registered.callbacks == map[] && registered.resolutions == [] && registered.deliveries == []
      ensures registeredContexts == old(registeredContexts) + {registered}
      ensures registeredContextsById == old(registeredContextsById)[registered.id := registered]
      ensures consumer.queueName == registered.id && consumer.context == registered && consumer.channel == channel
      ensures consumer.queues == map[] && !consumer.halted
      ensures channel.declared == old(channel.declared) + {registered.id}
      ensures channel.consumers == old(channel.consumers) + [consumer]
    {
      var networkId := GetNetworkId(id, contextType, contextId);
      registered := new RegisteredContext(networkId, behaviour);
      registeredContexts := registeredContexts + {registered};
      registeredContextsById := registeredContextsById[networkId := registered];
      channel.AssertQueue(networkId);
      consumer := new Consumer(networkId, registered, channel);
      channel.Consume(consumer);
    }

    /** `getRemote({context, id: contextId, replyToContext})`: a proxy to the context's queue that answers to the caller. */
    method GetRemote(contextType: Option<string>, contextId: Option<string>, replyToContext: RegisteredContext)
      returns (remote: RemoteContext)
      ensures fresh(remote)
      ensures remote.remoteQueueName == GetNetworkId(id, contextType, contextId)
      ensures remote.replyToContext == replyToContext && remote.channel == channel
    {
      remote := new RemoteContext(channel, GetNetworkId(id, contextType, contextId), replyToContext);
    }

    /** `unregister({context, id: contextId})` computes the network id and changes nothing. */
    method Unregister(contextType: Option<string>, contextId: Option<string>) returns (networkId: string)
      ensures networkId == GetNetworkId(id, contextType, contextId)
    {
      networkId := GetNetworkId(id, contextType, contextId);
    }
  }

  /** The context map: one channel, and the cache of context stores by id. */
  class ContextMap {
    const channel: Channel
    var contextStores: map<string, ContextStore>

    /**
      Every cached store was created for its own id, on the shared channel,
      and reaches each of its registered contexts under that context's own
      network id.
     */
    ghost predicate Valid()
      reads this, contextStores.Values
    {
      forall k :: k in contextStores ==>
        contextStores[k].id == k && contextStores[k].channel == channel && contextStores[k].Valid()
    }

    constructor ()
      ensures fresh(channel) && channel.sent == [] && channel.decisions == [] && channel.declared == {} && channel.consumers == []
      ensures contextStores == map[] && Valid()
    {
      channel := new Channel();
      contextStores := map[];
    }

    /**
      `getContextStore({id})`: the cached store when there is one, and
      nothing changes; otherwise exactly one new, empty store, now cached.
      So a second call with the same id returns the same store.
     */
    method GetContextStore(id: string) returns (store: ContextStore)
      requires Valid()
      modifies this
      ensures Valid()
      ensures store.id == id && store.channel == channel && store.Valid()
      ensures id in old(contextStores) ==> store == old(contextStores)[id] && contextStores == old(contextStores)
      ensures id !in old(contextStores) ==>
                && fresh(store) && store.registeredContexts == {} && store.registeredContextsById == map[]
                && contextStores == old(contextStores)[id := store]
      ensures contextStores[id] == store
    {
      if id in contextStores {
        return contextStores[id];
      }
      store := new ContextStore(id, channel);
      contextStores := contextStores[id := store];
    }
  }
}

/**
  The message protocol between registered contexts
  (server/src/classes/contexts/contextMap.ts), stated on values: what one
  consumer does with one inbound message, what a caller does when it sends a
  query or an event-stream request, and how the per-event-type stream queues
  hand their events to the waiting callback.

  The broker is a log of sent messages and a log of ack/nack decisions. With
  `prefetch(1)` a consumer holds at most one unacknowledged message, so each
  message is handled in one atomic step; a message whose handling throws is
  never acknowledged, and its consumer receives nothing more (`halted`).
 */
module Protocol {
  import opened Wrappers
  import opened Values

  const EventStreamRequestType: string := "EVENT_STREAM_REQUEST"
  const EventStreamResponseType: string := "EVENT_STREAM_RESPONSE"
  const QueryRequestType: string := "QUERY_REQUEST"
  const QueryResponseType: string := "QUERY_RESPONSE"

  const StreamIdNotFound: string := "Event Stream Correlation Id Not Found"
  const QueryIdNotFound: string := "Query Response Correlation Id Not Found"
  const UnknownQueueType: string := "Unknown queue type"

  /** A message as a consumer receives it: delivery tag, properties, and the decoded body. */
  datatype Message = Message(tag: nat, kind: string, correlationId: string, replyTo: string, body: Value)

  /** A message handed to `sendToQueue`. */
  datatype Outgoing = Outgoing(queue: string, body: Value, correlationId: string, replyTo: Option<string>, kind: string)

  /** `channel.ack(msg)` and `channel.nack(msg, false, requeue)`. */
  datatype Decision = Ack(tag: nat) | Nack(tag: nat, requeue: bool)

  /** What the shared channel has been asked to do, in order. */
  datatype Log = Log(sent: seq<Outgoing>, decisions: seq<Decision>)

  /**
    An entry of `correlationIdCallbacks`: the `{resolve, reject}` pair of a
    pending query, or the callback of an event stream (an opaque handle).
   */
  datatype Continuation = Resolver | Subscriber(callback: nat)

  /** One per-event-type queue: the correlation id captured when it was created, and the events not yet handed on. */
  datatype StreamQueue = StreamQueue(correlationId: string, pending: seq<Value>)

  /** A pending query's promise resolved with a reply. */
  datatype Resolution = Resolution(correlationId: string, reply: Value)

  /** A stream queue's worker handing an event on: to a callback, or failing because the entry is missing or is not callable. */
  datatype Delivery = Delivered(callback: nat, event: Value) | Undeliverable(correlationId: string, event: Value)

  /** What `registeredContext.streamEvents` does for one request: the events it passes to the callback, and whether it then rejects. */
  datatype Replayed = Replayed(events: seq<Value>, failed: bool)

  /**
    The registered context's own answers, which this module calls but does
    not define: `query(type, payload)` and the replay behind `streamEvents`.
   */
  datatype Behaviour = Behaviour(query: (Value, Value) -> Result<Value, Fault>, replay: Value -> Replayed)

  /**
    One registered context together with its consumer: its network id, its
    `correlationIdCallbacks`, the consumer's `eventStreamQueues`, what its
    pending requests have received, and whether its consumer is stuck on an
    unacknowledged message.
   */
  datatype Node = Node(
    id: string,
    callbacks: map<string, Continuation>,
    queues: map<Value, StreamQueue>,
    resolutions: seq<Resolution>,
    deliveries: seq<Delivery>,
    halted: bool)

  /** What became of one inbound message. */
  datatype Disposition = Acked | Nacked | Threw(fault: Fault) | NotDelivered

  datatype Handled = Handled(node: Node, log: Log, outcome: Disposition)

  /**
    The replayed events the stream callback manages to send: encoding an
    undefined event throws inside the callback before `sendToQueue`, so only
    the defined ones go out, in their order.
   */
  function Sendable(events: seq<Value>): (sent: seq<Value>)
    ensures |sent| <= |events|
    ensures forall i :: 0 <= i < |sent| ==> sent[i] != Undefined
    ensures (forall i :: 0 <= i < |events| ==> events[i] != Undefined) ==> sent == events
    ensures (forall i :: 0 <= i < |events| ==> events[i] == Undefined) ==> sent == []
    decreases |events|
  {
    if events == [] then []
    else
      var last := events[|events| - 1];
      var init := Sendable(events[..|events| - 1]);
      if last == Undefined then init else init + [last]
  }

  /** The EVENT_STREAM_RESPONSE messages that forward `events`, one each, to `replyTo`. */
  function StreamResponses(replyTo: string, correlationId: string, events: seq<Value>): seq<Outgoing> {
    seq(|events|, i requires 0 <= i < |events| => Outgoing(replyTo, events[i], correlationId, None, EventStreamResponseType))
  }

  /** Replaying one more event sends one more response when that event is defined, and nothing more otherwise. */
  lemma SendableSnoc(replyTo: string, correlationId: string, events: seq<Value>, i: nat)
    requires i < |events|
    ensures StreamResponses(replyTo, correlationId, Sendable(events[..i + 1]))
            == StreamResponses(replyTo, correlationId, Sendable(events[..i]))
               + (if events[i] == Undefined then [] else [Outgoing(replyTo, events[i], correlationId, None, EventStreamResponseType)])
  {
    assert events[..i + 1][..i] == events[..i];
  }

  /** The events the callback sends for a replay of `a` then `b`: those of `a`, then those of `b`. */
  lemma {:induction false} SendableConcat(a: seq<Value>, b: seq<Value>)
    ensures Sendable(a + b) == Sendable(a) + Sendable(b)
    decreases |b|
  {
    if b == [] {
      assert a + b == a;
    } else {
      var init := b[..|b| - 1];
      var last := b[|b| - 1];
      assert (a + b)[..|a + b| - 1] == a + init;
      assert (a + b)[|a + b| - 1] == last;
      SendableConcat(a, init);
    }
  }

  /** A single event is sent exactly when it is defined. */
  lemma SendableOne(e: Value)
    ensures Sendable([e]) == if e == Undefined then [] else [e]
  {
    assert [e][..0] == [];
  }

  /** The callback sends every defined event as often as it occurs, and no undefined one. */
  lemma {:induction false} SendableCounts(events: seq<Value>)
    ensures multiset(Sendable(events)) == multiset(events)[Undefined := 0]
    decreases |events|
  {
    if events != [] {
      var init := events[..|events| - 1];
      var last := events[|events| - 1];
      assert events == init + [last];
      SendableCounts(init);
    }
  }

  /** An uncaught throw: nothing is acknowledged and the consumer stops receiving. */
  function Throw(n: Node, log: Log, fault: Fault): Handled {
    Handled(n.(halted := true), log, Threw(fault))
  }

  function Decide(log: Log, d: Decision): Log {
    log.(decisions := log.decisions + [d])
  }

  /**
    EVENT_STREAM_REQUEST: forward every replayed event that can be encoded to
    `replyTo`, then ack; nack without requeue when the replay fails.
   */
  function HandleStreamRequest(b: Behaviour, n: Node, log: Log, m: Message): Handled {
    var replay := b.replay(m.body);
    var log' := log.(sent := log.sent + StreamResponses(m.replyTo, m.correlationId, Sendable(replay.events)));
    if replay.failed then Handled(n, Decide(log', Nack(m.tag, false)), Nacked)
    else Handled(n, Decide(log', Ack(m.tag)), Acked)
  }

  /**
    QUERY_REQUEST: destructure `{type, payload}` from the body (a TypeError,
    outside the try, when the body is null), ask the context, and reply once
    then ack. A failed query is nacked without requeue and gets no reply; so
    is an undefined answer, whose encoding throws inside the try before the
    reply is sent.
   */
  function HandleQueryRequest(b: Behaviour, n: Node, log: Log, m: Message): Handled {
    if Nullish(m.body) then Throw(n, log, TypeError("type"))
    else
      match b.query(Get(m.body, "type"), Get(m.body, "payload"))
      case Failure(_) => Handled(n, Decide(log, Nack(m.tag, false)), Nacked)
      case Success(Undefined) => Handled(n, Decide(log, Nack(m.tag, false)), Nacked)
      case Success(response) =>
        var reply := Outgoing(m.replyTo, response, m.correlationId, None, QueryResponseType);
        Handled(n, Decide(log.(sent := log.sent + [reply]), Ack(m.tag)), Acked)
  }

  /**
    EVENT_STREAM_RESPONSE: the correlation id must be pending; the event goes
    to the back of the queue for its type, which is created on first use and
    keeps the correlation id of the message that created it; then ack. The
    pending entry stays.
   */
  function HandleStreamResponse(n: Node, log: Log, m: Message): Handled {
    if m.correlationId !in n.callbacks then Throw(n, log, Thrown(StreamIdNotFound))
    else if Nullish(m.body) then Throw(n, log, TypeError("type"))
    else
      var t := Get(m.body, "type");
      var q := if t in n.queues then n.queues[t] else StreamQueue(m.correlationId, []);
      Handled(n.(queues := n.queues[t := q.(pending := q.pending + [m.body])]), Decide(log, Ack(m.tag)), Acked)
  }

  /**
    QUERY_RESPONSE: the correlation id must be pending; its entry is removed,
    then resolved with the reply, then the message is acked. An entry that is
    a stream callback has no `resolve`: removed, then a TypeError.
   */
  function HandleQueryResponse(n: Node, log: Log, m: Message): Handled {
    if m.correlationId !in n.callbacks then Throw(n, log, Thrown(QueryIdNotFound))
    else
      var entry := n.callbacks[m.correlationId];
      var n' := n.(callbacks := n.callbacks - {m.correlationId});
      if entry.Resolver? then
        Handled(n'.(resolutions := n.resolutions + [Resolution(m.correlationId, m.body)]), Decide(log, Ack(m.tag)), Acked)
      else
        Throw(n', log, TypeError("resolve"))
  }

  /** The consumer of a registered context's queue, for one message. */
  function Handle(b: Behaviour, n: Node, log: Log, m: Message): Handled {
    if n.halted then Handled(n, log, NotDelivered)
    else if m.kind == EventStreamRequestType then HandleStreamRequest(b, n, log, m)
    else if m.kind == QueryRequestType then HandleQueryRequest(b, n, log, m)
    else if m.kind == EventStreamResponseType then HandleStreamResponse(n, log, m)
    else if m.kind == QueryResponseType then HandleQueryResponse(n, log, m)
    else Throw(n, log, Thrown(UnknownQueueType))
  }

  /**
    The worker of the queue for event type `t` takes its head and looks up
    the correlation id that queue captured; nothing happens on a missing or
    empty queue.
   */
  function DeliverNext(n: Node, t: Value): Node {
    if t !in n.queues || n.queues[t].pending == [] then n
    else
      var q := n.queues[t];
      var d := if q.correlationId in n.callbacks && n.callbacks[q.correlationId].Subscriber?
               then Delivered(n.callbacks[q.correlationId].callback, q.pending[0])
               else Undeliverable(q.correlationId, q.pending[0]);
      n.(queues := n.queues[t := q.(pending := q.pending[1..])], deliveries := n.deliveries + [d])
  }

  /** The message `queryStorage` sends: the event `{type: query, payload}`, replies to the caller's queue. */
  function QueryRequestTo(target: string, replyTo: string, query: string, payload: Value, correlationId: string): Outgoing {
    Outgoing(target, Obj(map["type" := Str(query), "payload" := payload]), correlationId, Some(replyTo), QueryRequestType)
  }

  /** The parameters of `streamEvents`; the callback is an opaque handle. */
  datatype StreamParams = StreamParams(kind: Value, sequence: Value, sessionOnly: Value, callback: nat)

  /** The message `streamEvents` sends: only `type`, `sequence` and `sessionOnly`, replies to the caller's queue. */
  function StreamRequestTo(target: string, replyTo: string, params: StreamParams, correlationId: string): Outgoing {
    Outgoing(target, Obj(map["type" := params.kind, "sequence" := params.sequence, "sessionOnly" := params.sessionOnly]),
             correlationId, Some(replyTo), EventStreamRequestType)
  }

  /** `queryStorage` on behalf of the caller `n`: a resolver in the caller's map, and one request. */
  function SendQuery(n: Node, log: Log, target: string, query: string, payload: Value, correlationId: string): (Node, Log) {
    (n.(callbacks := n.callbacks[correlationId := Resolver]),
     log.(sent := log.sent + [QueryRequestTo(target, n.id, query, payload, correlationId)]))
  }

  /** `streamEvents` on behalf of the caller `n`: the callback in the caller's map, and one request. */
  function SendStreamRequest(n: Node, log: Log, target: string, params: StreamParams, correlationId: string): (Node, Log) {
    (n.(callbacks := n.callbacks[correlationId := Subscriber(params.callback)]),
     log.(sent := log.sent + [StreamRequestTo(target, n.id, params, correlationId)]))
  }

  /** The broker delivering a sent message to a consumer under delivery tag `tag` (a missing `replyTo` reads as empty). */
  function Deliver(o: Outgoing, tag: nat): Message {
    Message(tag, o.kind, o.correlationId, if o.replyTo.Some? then o.replyTo.value else "", o.body)
  }

  /** One consumer receiving `ms` in order. */
  function Receive(b: Behaviour, n: Node, log: Log, ms: seq<Message>): (Node, Log)
    decreases |ms|
  {
    if ms == [] then (n, log)
    else
      var h := Handle(b, n, log, ms[0]);
      Receive(b, h.node, h.log, ms[1..])
  }

  /** How many resolutions answer the correlation id `c`. */
  function Resolved(rs: seq<Resolution>, c: string): nat
    decreases |rs|
  {
    if rs == [] then 0
    else Resolved(rs[..|rs| - 1], c) + (if rs[|rs| - 1].correlationId == c then 1 else 0)
  }

  // ---------------------------------------------------------------------
  // One message
  // ---------------------------------------------------------------------

  /**
    Which messages throw: an unknown type, a null query request, a stream
    response for an unknown id or with a null event, and a query response for
    an unknown id or for a stream callback. A throw acknowledges nothing,
    sends nothing and stops the consumer; every other delivered message gets
    exactly one decision, for its own tag.
   */
  lemma Throws(b: Behaviour, n: Node, log: Log, m: Message)
    requires !n.halted
    ensures var h := Handle(b, n, log, m);
            h.outcome.Threw? <==>
              || (m.kind !in {EventStreamRequestType, QueryRequestType, EventStreamResponseType, QueryResponseType})
              || (m.kind == QueryRequestType && Nullish(m.body))
              || (m.kind == EventStreamResponseType && (m.correlationId !in n.callbacks || Nullish(m.body)))
              || (m.kind == QueryResponseType && (m.correlationId !in n.callbacks || n.callbacks[m.correlationId].Subscriber?))
    ensures var h := Handle(b, n, log, m);
            h.outcome.Threw? ==> h.log == log && h.node.halted
    ensures var h := Handle(b, n, log, m);
            h.outcome == Acked ==> h.log.decisions == log.decisions + [Ack(m.tag)]
    ensures var h := Handle(b, n, log, m);
            h.outcome == Nacked ==> h.log.decisions == log.decisions + [Nack(m.tag, false)]
    ensures Handle(b, n, log, m).outcome != NotDelivered
  {
  }

  /** A consumer stuck on an unacknowledged message takes nothing more, and stays stuck. */
  lemma {:induction false} HaltedStaysHalted(b: Behaviour, n: Node, log: Log, ms: seq<Message>)
    requires n.halted
    ensures Receive(b, n, log, ms) == (n, log)
    decreases |ms|
  {
    if ms != [] {
      HaltedStaysHalted(b, n, log, ms[1..]);
    }
  }

  /**
    A QUERY_REQUEST gets exactly one QUERY_RESPONSE, to its `replyTo` and with
    its correlation id, carrying the context's answer, then an ack; a failing
    query, or one whose answer is undefined, is nacked without requeue and
    answered with nothing. No pending entry and no stream queue changes.
   */
  lemma QueryRequestAnswered(b: Behaviour, n: Node, log: Log, m: Message)
    requires !n.halted && m.kind == QueryRequestType && !Nullish(m.body)
    ensures var h := Handle(b, n, log, m);
            var r := b.query(Get(m.body, "type"), Get(m.body, "payload"));
            && h.node == n
            && (r.Success? && r.value != Undefined ==>
                  h.outcome == Acked
                  && h.log == Log(log.sent + [Outgoing(m.replyTo, r.value, m.correlationId, None, QueryResponseType)],
                                  log.decisions + [Ack(m.tag)]))
            && (r.Failure? || r.value == Undefined ==>
                  h.outcome == Nacked && h.log == Log(log.sent, log.decisions + [Nack(m.tag, false)]))
  {
  }

  /**
    An EVENT_STREAM_REQUEST forwards each replayed event that is defined, in
    order, as one EVENT_STREAM_RESPONSE to `replyTo` with the request's
    correlation id, then acks it, or nacks it without requeue when the replay
    fails.
   */
  lemma StreamRequestAnswered(b: Behaviour, n: Node, log: Log, m: Message)
    requires !n.halted && m.kind == EventStreamRequestType
    ensures var h := Handle(b, n, log, m);
            var events := Sendable(b.replay(m.body).events);
            && h.node == n
            && |h.log.sent| == |log.sent| + |events|
            && h.log.sent[..|log.sent|] == log.sent
            && (forall i :: 0 <= i < |events| ==>
                  h.log.sent[|log.sent| + i] == Outgoing(m.replyTo, events[i], m.correlationId, None, EventStreamResponseType))
            && h.log.decisions == log.decisions + [if b.replay(m.body).failed then Nack(m.tag, false) else Ack(m.tag)]
  {
    var h := Handle(b, n, log, m);
    var events := Sendable(b.replay(m.body).events);
    assert h.log.sent == log.sent + StreamResponses(m.replyTo, m.correlationId, events);
  }

  /**
    An EVENT_STREAM_RESPONSE for a pending id goes to the back of the queue
    for its event type and is acked; a new queue captures this message's
    correlation id, an existing one keeps the id it has. The pending entry,
    the other queues and the sent log are left alone.
   */
  lemma StreamResponseQueued(b: Behaviour, n: Node, log: Log, m: Message)
    requires !n.halted && m.kind == EventStreamResponseType
    requires m.correlationId in n.callbacks && !Nullish(m.body)
    ensures var h := Handle(b, n, log, m);
            var t := Get(m.body, "type");
            && h.outcome == Acked
            && h.log == Log(log.sent, log.decisions + [Ack(m.tag)])
            && h.node.callbacks == n.callbacks
            && h.node.queues.Keys == n.queues.Keys + {t}
            && h.node.queues[t].pending == (if t in n.queues then n.queues[t].pending else []) + [m.body]
            && h.node.queues[t].correlationId == (if t in n.queues then n.queues[t].correlationId else m.correlationId)
            && (forall u :: u in n.queues && u != t ==> h.node.queues[u] == n.queues[u])
            && h.node.resolutions == n.resolutions && h.node.deliveries == n.deliveries
  {
  }

  /**
    A QUERY_RESPONSE for a pending query removes the entry, resolves it with
    the reply and acks; a second response with the same id then finds no
    entry and throws, acknowledging nothing.
   */
  lemma QueryResponseResolvesOnce(b: Behaviour, n: Node, log: Log, m: Message, again: Message)
    requires !n.halted && m.kind == QueryResponseType
    requires m.correlationId in n.callbacks && n.callbacks[m.correlationId] == Resolver
    requires again.kind == QueryResponseType && again.correlationId == m.correlationId
    ensures var h := Handle(b, n, log, m);
            && h.outcome == Acked
            && h.node.callbacks == n.callbacks - {m.correlationId}
            && h.node.resolutions == n.resolutions + [Resolution(m.correlationId, m.body)]
            && h.log == Log(log.sent, log.decisions + [Ack(m.tag)])
            && Handle(b, h.node, h.log, again) == Throw(h.node, h.log, Thrown(QueryIdNotFound))
  {
  }

  // ---------------------------------------------------------------------
  // Runs of messages
  // ---------------------------------------------------------------------

  lemma ResolvedSnoc(rs: seq<Resolution>, r: Resolution, c: string)
    ensures Resolved(rs + [r], c) == Resolved(rs, c) + (if r.correlationId == c then 1 else 0)
  {
    assert (rs + [r])[..|rs|] == rs;
  }

  /**
    One message never adds a pending entry, and resolves the id `c` only by
    removing its entry.
   */
  lemma StepResolves(b: Behaviour, n: Node, log: Log, m: Message, c: string)
    ensures var h := Handle(b, n, log, m);
            && h.node.callbacks.Keys <= n.callbacks.Keys
            && Resolved(h.node.resolutions, c)
               <= Resolved(n.resolutions, c) + (if c in n.callbacks && c !in h.node.callbacks then 1 else 0)
  {
    var h := Handle(b, n, log, m);
    if !n.halted && m.kind == QueryResponseType && m.correlationId in n.callbacks && n.callbacks[m.correlationId].Resolver? {
      ResolvedSnoc(n.resolutions, Resolution(m.correlationId, m.body), c);
    } else {
      assert h.node.resolutions == n.resolutions;
    }
  }

  /**
    Whatever messages a consumer receives, a correlation id is resolved at
    most once, and never when it was not pending to begin with: pending
    entries are only ever removed, and resolving one removes it.
   */
  lemma {:induction false} ResolvedAtMostOnce(b: Behaviour, n: Node, log: Log, ms: seq<Message>, c: string)
    ensures Receive(b, n, log, ms).0.callbacks.Keys <= n.callbacks.Keys
    ensures Resolved(Receive(b, n, log, ms).0.resolutions, c) <= Resolved(n.resolutions, c) + (if c in n.callbacks then 1 else 0)
    decreases |ms|
  {
    if ms != [] {
      var h := Handle(b, n, log, ms[0]);
      StepResolves(b, n, log, ms[0], c);
      ResolvedAtMostOnce(b, h.node, h.log, ms[1..], c);
    }
  }

  // ---------------------------------------------------------------------
  // Stream queues
  // ---------------------------------------------------------------------

  /** What the worker of a queue with captured id `c` does with `events`, given the pending entries. */
  function Deliveries(callbacks: map<string, Continuation>, c: string, events: seq<Value>): seq<Delivery> {
    seq(|events|, i requires 0 <= i < |events| =>
      if c in callbacks && callbacks[c].Subscriber? then Delivered(callbacks[c].callback, events[i]) else Undeliverable(c, events[i]))
  }

  /** `k` turns of the worker for event type `t`. */
  function DeliverTimes(n: Node, t: Value, k: nat): Node
    decreases k
  {
    if k == 0 then n else DeliverTimes(DeliverNext(n, t), t, k - 1)
  }

  /**
    Per event type, first in first out: `k` turns of a queue's worker hand on
    its first `k` events in the order they were queued, all to the callback
    of the correlation id the queue captured, and leave the rest queued.
   */
  lemma {:induction false} DrainInOrder(n: Node, t: Value, k: nat)
    requires t in n.queues && k <= |n.queues[t].pending|
    ensures var q := n.queues[t];
            var n' := DeliverTimes(n, t, k);
            && n'.deliveries == n.deliveries + Deliveries(n.callbacks, q.correlationId, q.pending[..k])
            && n'.queues == n.queues[t := q.(pending := q.pending[k..])]
            && n'.callbacks == n.callbacks
            && n'.resolutions == n.resolutions && n'.halted == n.halted
    decreases k
  {
    var q := n.queues[t];
    if k == 0 {
      assert q.pending[0..] == q.pending;
      assert n.queues[t := q] == n.queues;
    } else {
      var n1 := DeliverNext(n, t);
      var q1 := q.(pending := q.pending[1..]);
      assert n1.queues == n.queues[t := q1];
      DrainInOrder(n1, t, k - 1);
      assert q1.pending[k - 1..] == q.pending[k..];
      assert n1.queues[t := q1.(pending := q1.pending[k - 1..])] == n.queues[t := q.(pending := q.pending[k..])];
      var ds := Deliveries(n.callbacks, q.correlationId, q.pending[..k]);
      assert ds == [ds[0]] + Deliveries(n.callbacks, q.correlationId, q1.pending[..k - 1]);
    }
  }

  // ---------------------------------------------------------------------
  // Conversations between two contexts
  // ---------------------------------------------------------------------

  /**
    A query and its answer: the caller registers a resolver under a fresh id
    and sends the request; the target answers it; the caller's consumer
    receives the answer. The caller ends with the same pending entries as
    before, one resolution carrying the target's answer, and both messages
    acknowledged.
   */
  lemma QueryRoundTrip(b: Behaviour, caller: Node, callee: Behaviour, target: Node, log: Log,
                       query: string, payload: Value, c: string, tag1: nat, tag2: nat, answer: Value)
    requires !caller.halted && !target.halted && c !in caller.callbacks
    requires callee.query(Str(query), payload) == Success(answer) && answer != Undefined
    ensures var (caller1, log1) := SendQuery(caller, log, target.id, query, payload, c);
            var h1 := Handle(callee, target, log1, Deliver(log1.sent[|log1.sent| - 1], tag1));
            var h2 := Handle(b, caller1, h1.log, Deliver(h1.log.sent[|h1.log.sent| - 1], tag2));
            && h1.outcome == Acked && h2.outcome == Acked
            && h1.node == target
            && h2.node.callbacks == caller.callbacks
            && h2.node.resolutions == caller.resolutions + [Resolution(c, answer)]
            && h2.log.sent == log.sent + [QueryRequestTo(target.id, caller.id, query, payload, c),
                                          Outgoing(caller.id, answer, c, None, QueryResponseType)]
            && h2.log.decisions == log.decisions + [Ack(tag1), Ack(tag2)]
  {
    var (caller1, log1) := SendQuery(caller, log, target.id, query, payload, c);
    var m1 := Deliver(log1.sent[|log1.sent| - 1], tag1);
    assert m1.body == Obj(map["type" := Str(query), "payload" := payload]);
    assert Get(m1.body, "type") == Str(query) && Get(m1.body, "payload") == payload;
    QueryRequestAnswered(callee, target, log1, m1);
    var h1 := Handle(callee, target, log1, m1);
    var m2 := Deliver(h1.log.sent[|h1.log.sent| - 1], tag2);
    assert m2 == Message(tag2, QueryResponseType, c, "", answer);
    QueryResponseResolvesOnce(b, caller1, h1.log, m2, m2);
    assert caller1.callbacks - {c} == caller.callbacks;
  }

  /**
    A query the target cannot answer, because it fails or because its answer
    is undefined: the target nacks the request and sends nothing, so the
    caller's resolver stays pending with no resolution.
   */
  lemma QueryLeftPending(caller: Node, callee: Behaviour, target: Node, log: Log,
                         query: string, payload: Value, c: string, tag: nat)
    requires !target.halted && c !in caller.callbacks
    requires var r := callee.query(Str(query), payload); r.Failure? || r.value == Undefined
    ensures var (caller1, log1) := SendQuery(caller, log, target.id, query, payload, c);
            var h := Handle(callee, target, log1, Deliver(log1.sent[|log1.sent| - 1], tag));
            && h.outcome == Nacked && h.node == target
            && h.log.sent == log.sent + [QueryRequestTo(target.id, caller.id, query, payload, c)]
            && h.log.decisions == log.decisions + [Nack(tag, false)]
            && caller1.callbacks[c] == Resolver
            && caller1.resolutions == caller.resolutions
  {
    var (caller1, log1) := SendQuery(caller, log, target.id, query, payload, c);
    var m := Deliver(log1.sent[|log1.sent| - 1], tag);
    assert Get(m.body, "type") == Str(query) && Get(m.body, "payload") == payload;
    QueryRequestAnswered(callee, target, log1, m);
  }

  /** The bodies of `ms`, in order. */
  function Bodies(ms: seq<Message>): seq<Value> {
    seq(|ms|, i requires 0 <= i < |ms| => ms[i].body)
  }

  /** The broker delivering `os` in order, under consecutive delivery tags from `firstTag`. */
  function DeliverAll(os: seq<Outgoing>, firstTag: nat): seq<Message> {
    seq(|os|, i requires 0 <= i < |os| => Deliver(os[i], firstTag + i))
  }

  lemma StreamResponseStep(b: Behaviour, n: Node, log: Log, m: Message, c: string, t: Value)
    requires !n.halted && c in n.callbacks
    requires m.kind == EventStreamResponseType && m.correlationId == c && !Nullish(m.body) && Get(m.body, "type") == t
    ensures var q := if t in n.queues then n.queues[t] else StreamQueue(c, []);
            Handle(b, n, log, m)
              == Handled(n.(queues := n.queues[t := q.(pending := q.pending + [m.body])]), Log(log.sent, log.decisions + [Ack(m.tag)]), Acked)
  {
  }

  /**
    EVENT_STREAM_RESPONSEs for one pending id and one event type are each
    acked and queued behind one another, in arrival order, in the single queue
    for that type; nothing is sent, resolved or handed on meanwhile.
   */
  lemma {:induction false} ReceiveStreamResponses(b: Behaviour, n: Node, log: Log, ms: seq<Message>, c: string, t: Value)
    requires !n.halted && c in n.callbacks
    requires forall i :: 0 <= i < |ms| ==>
               ms[i].kind == EventStreamResponseType && ms[i].correlationId == c && !Nullish(ms[i].body) && Get(ms[i].body, "type") == t
    ensures var (n', log') := Receive(b, n, log, ms);
            var q := if t in n.queues then n.queues[t] else StreamQueue(c, []);
            && !n'.halted && n'.callbacks == n.callbacks
            && n'.resolutions == n.resolutions && n'.deliveries == n.deliveries
            && (t in n.queues || ms != [] ==> n'.queues == n.queues[t := q.(pending := q.pending + Bodies(ms))])
            && log'.sent == log.sent
            && log'.decisions == log.decisions + seq(|ms|, i requires 0 <= i < |ms| => Ack(ms[i].tag))
    decreases |ms|
  {
    var q := if t in n.queues then n.queues[t] else StreamQueue(c, []);
    if ms == [] {
      assert q.pending + Bodies(ms) == q.pending;
      if t in n.queues {
        assert n.queues[t := q] == n.queues;
      }
    } else {
      var h := Handle(b, n, log, ms[0]);
      var q1 := q.(pending := q.pending + [ms[0].body]);
      StreamResponseStep(b, n, log, ms[0], c, t);
      assert Receive(b, n, log, ms) == Receive(b, h.node, h.log, ms[1..]);
      assert forall i :: 0 <= i < |ms[1..]| ==> ms[1..][i] == ms[i + 1];
      ReceiveStreamResponses(b, h.node, h.log, ms[1..], c, t);
      assert Bodies(ms) == [ms[0].body] + Bodies(ms[1..]);
      assert q1.pending + Bodies(ms[1..]) == q.pending + Bodies(ms);
      assert h.node.queues[t := q1.(pending := q1.pending + Bodies(ms[1..]))]
             == n.queues[t := q.(pending := q.pending + Bodies(ms))];
      assert seq(|ms|, i requires 0 <= i < |ms| => Ack(ms[i].tag))
             == [Ack(ms[0].tag)] + seq(|ms[1..]|, i requires 0 <= i < |ms[1..]| => Ack(ms[1..][i].tag));
    }
  }

  /**
    A target answering an EVENT_STREAM_REQUEST whose replay succeeds with
    events that are all defined: one response per event, in order, then an ack.
   */
  lemma StreamRequestServed(callee: Behaviour, target: Node, log: Log, m: Message, events: seq<Value>)
    requires !target.halted && m.kind == EventStreamRequestType
    requires callee.replay(m.body) == Replayed(events, false)
    requires forall i :: 0 <= i < |events| ==> events[i] != Undefined
    ensures var h := Handle(callee, target, log, m);
            && h.outcome == Acked && h.node == target
            && h.log == Log(log.sent + StreamResponses(m.replyTo, m.correlationId, events), log.decisions + [Ack(m.tag)])
  {
    assert Sendable(events) == events;
  }

  /**
    A caller's consumer receiving the responses of one stream whose events
    all have type `t`, under consecutive tags: each is acked, and `|events|`
    turns of the worker for `t` then hand every event, in order, to the
    stream's callback. The stream's entry stays pending.
   */
  lemma StreamDelivered(b: Behaviour, n: Node, log: Log, replyTo: string, c: string, cb: nat,
                        events: seq<Value>, t: Value, firstTag: nat)
    requires !n.halted && c in n.callbacks && n.callbacks[c] == Subscriber(cb) && t !in n.queues
    requires forall i :: 0 <= i < |events| ==> events[i].Obj? && Get(events[i], "type") == t
    ensures var (n', log') := Receive(b, n, log, DeliverAll(StreamResponses(replyTo, c, events), firstTag));
            var n'' := DeliverTimes(n', t, |events|);
            && log'.sent == log.sent
            && log'.decisions == log.decisions + seq(|events|, i requires 0 <= i < |events| => Ack(firstTag + i))
            && n''.deliveries == n.deliveries + seq(|events|, i requires 0 <= i < |events| => Delivered(cb, events[i]))
            && n''.callbacks == n.callbacks
            && n''.resolutions == n.resolutions
  {
    var ms := DeliverAll(StreamResponses(replyTo, c, events), firstTag);
    assert |ms| == |events|;
    forall i | 0 <= i < |ms|
      ensures ms[i] == Message(firstTag + i, EventStreamResponseType, c, "", events[i])
    {
    }
    ReceiveStreamResponses(b, n, log, ms, c, t);
    var (n', log') := Receive(b, n, log, ms);
    assert Bodies(ms) == events;
    assert seq(|ms|, i requires 0 <= i < |ms| => Ack(ms[i].tag))
           == seq(|events|, i requires 0 <= i < |events| => Ack(firstTag + i));
    if events != [] {
      assert [] + Bodies(ms) == events;
      assert n'.queues == n.queues[t := StreamQueue(c, events)];
      DrainInOrder(n', t, |events|);
      assert events[..|events|] == events;
      assert Deliveries(n'.callbacks, c, events) == seq(|events|, i requires 0 <= i < |events| => Delivered(cb, events[i]));
    }
  }

  /**
    An event stream end to end: the caller registers its callback under a
    fresh id and sends the request; the target replays its events, each as
    one response, and acks; the caller's consumer acks and queues every
    response; the worker for the events' type then hands every event, in
    replay order, to that callback. The stream's entry stays pending.
   */
  lemma StreamRoundTrip(b: Behaviour, caller: Node, callee: Behaviour, target: Node, log: Log,
                        params: StreamParams, c: string, tag: nat, firstTag: nat, events: seq<Value>, t: Value)
    requires !caller.halted && !target.halted && c !in caller.callbacks && t !in caller.queues
    requires callee.replay(StreamRequestTo(target.id, caller.id, params, c).body) == Replayed(events, false)
    requires forall i :: 0 <= i < |events| ==> events[i].Obj? && Get(events[i], "type") == t
    ensures var (caller1, log1) := SendStreamRequest(caller, log, target.id, params, c);
            var h := Handle(callee, target, log1, Deliver(log1.sent[|log1.sent| - 1], tag));
            var responses := h.log.sent[|log1.sent|..];
            var (caller2, log2) := Receive(b, caller1, h.log, DeliverAll(responses, firstTag));
            var caller3 := DeliverTimes(caller2, t, |events|);
            && h.outcome == Acked && h.node == target
            && responses == StreamResponses(caller.id, c, events)
            && log2.decisions == log.decisions + [Ack(tag)] + seq(|events|, i requires 0 <= i < |events| => Ack(firstTag + i))
            && caller3.deliveries
               == caller.deliveries + seq(|events|, i requires 0 <= i < |events| => Delivered(params.callback, events[i]))
            && caller3.callbacks == caller.callbacks[c := Subscriber(params.callback)]
            && caller3.resolutions == caller.resolutions
  {
    var (caller1, log1) := SendStreamRequest(caller, log, target.id, params, c);
    var m := Deliver(log1.sent[|log1.sent| - 1], tag);
    assert m == Message(tag, EventStreamRequestType, c, caller.id, StreamRequestTo(target.id, caller.id, params, c).body);
    StreamRequestServed(callee, target, log1, m, events);
    var h := Handle(callee, target, log1, m);
    assert h.log.sent[|log1.sent|..] == StreamResponses(caller.id, c, events);
    StreamDelivered(b, caller1, h.log, caller.id, c, params.callback, events, t, firstTag);
  }

  /**
    Stream queues keep the correlation id of the response that created them:
    two streams answered with events of the same type, under two different
    pending callbacks, both end up at the callback of the first.
   */
  lemma CapturedCorrelationId(b: Behaviour, n: Node, log: Log, m1: Message, m2: Message, cb1: nat, cb2: nat)
    requires !n.halted && m1.kind == EventStreamResponseType && m2.kind == EventStreamResponseType
    requires m1.correlationId != m2.correlationId
    requires n.callbacks == map[m1.correlationId := Subscriber(cb1), m2.correlationId := Subscriber(cb2)]
    requires n.queues == map[]
    requires m1.body.Obj? && m2.body.Obj? && Get(m1.body, "type") == Get(m2.body, "type")
    ensures var h1 := Handle(b, n, log, m1);
            var h2 := Handle(b, h1.node, h1.log, m2);
            DeliverTimes(h2.node, Get(m1.body, "type"), 2).deliveries
              == n.deliveries + [Delivered(cb1, m1.body), Delivered(cb1, m2.body)]
  {
    var t := Get(m1.body, "type");
    var h1 := Handle(b, n, log, m1);
    StreamResponseQueued(b, n, log, m1);
    var h2 := Handle(b, h1.node, h1.log, m2);
    StreamResponseQueued(b, h1.node, h1.log, m2);
    assert h2.node.queues[t] == StreamQueue(m1.correlationId, [m1.body, m2.body]);
    DrainInOrder(h2.node, t, 2);
    assert [m1.body, m2.body][..2] == [m1.body, m2.body];
  }
}

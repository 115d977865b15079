# Carver context map and context reducers, in Dafny

This project models two parts of the Carver blockchain framework server.

**The context map** (`server/src/classes/contexts/contextMap.ts`) connects
registered contexts through RabbitMQ. A context map caches one context store
per store id. A store registers contexts under a *network id*
`[store][type][id]`, and that id is also the context's queue name. A
consumer on that queue handles four kinds of message:

- event-stream requests and query requests, which it answers;
- event-stream responses, which it queues per event type for the callback
  waiting on them;
- query responses, which resolve the pending query and remove it.

`getRemote` gives a proxy that sends requests to another context's queue and
parks their continuations in the *caller's* `correlationIdCallbacks`.

- `network_id.dfy` (module `NetworkIds`): `getNetworkId`, with a reader that
  recovers the segments from an id built from bracket-free names.
- `protocol.dfy` (module `Protocol`): the specification on values. It covers
  one consumer handling one message (`Handle`), one turn of a per-type
  stream-queue worker (`DeliverNext`), and the requests `queryStorage` and
  `streamEvents` send. The broker is a log of sent messages plus a log of
  ack/nack decisions. Because of `prefetch(1)`, each message is one atomic
  step. A message whose handling throws is never acknowledged, and its
  consumer receives nothing more (`halted`). An undefined value cannot be
  encoded as a message body. So a query whose answer is undefined is nacked
  and never answered, and an undefined replayed event is never sent.
- `context_map.dfy` (module `ContextMaps`): the objects themselves. These are
  the shared channel, registered contexts, consumers, context stores, remote
  proxies and the store cache. Each method's postcondition ties the new
  object state to the specification, or to the old state.

A behaviour of the source that the model keeps on purpose: a per-type stream
queue keeps the correlation id of the response that *created* it. Later
events of that type, even ones answering another stream request, go to the
first request's callback (`Protocol.CapturedCorrelationId`).

**The context reducers** are pure `(state, event)` functions built with the
`withState` accumulator. `with_state.dfy` models that accumulator:

- `set` merges fields into the state;
- `emit` appends an event and `query` appends a query request;
- a typed `reduce` runs its callback only for events of its type, and an
  untyped one runs it always;
- a throw aborts the whole invocation.

`values.dfy` models JavaScript values. Reading a property of `undefined` or
`null` is a `TypeError`. `replay.dfy` runs a reducer over a sequence of
events, with the convention that a throwing invocation leaves the state
unchanged. The reducers are in `carver_user.dfy`, `rpc_get_info.dfy`,
`blocks_widget.dfy`, `app_reducer.dfy`, `api_socket.dfy` and `api_rest.dfy`.

## Model

| member | source | states |
|---|---|---|
| `Values.MapIds` | server/src/contexts/app/carverUser/context.ts:130 | `xs.map(x => x.id)` succeeds exactly when no element is undefined or null. It then gives the ids position by position; otherwise it fails with a TypeError on `id`. |
| `Values.Ids` | server/src/contexts/app/carverUser/context.ts:56 | `.map(x => x.id)` on any value succeeds exactly on an array whose elements all have readable ids, and keeps length and order. |
| `WithState.ChainSkips` | src/contexts/app/reducer.ts:11-14 | When no `reduce` of a chain matches the event's type, the chain passes the incoming outcome through unchanged, including a throw. |
| `WithState.ChainDispatch` | server/src/contexts/app/carverUser/context.ts:171-191 | In a chain with distinct types, the first handler whose type matches decides the outcome alone. An event of any other type leaves the state as it is, with nothing emitted or queried. |
| `AppContext.Initialize` | src/contexts/app/reducer.ts:4-9 | APP:INITIALIZE throws `isAlreadyInitialized` on an initialised state. Otherwise it raises `isInitialized` and emits APP:INITIALIZED exactly once, querying nothing. |
| `AppContext.OtherEventsIgnored` | src/contexts/app/reducer.ts:11-14 | Every other event type leaves the state unchanged, with nothing emitted or queried. |
| `AppContext.InitializeGuarded` | src/contexts/app/reducer.ts:4-8 | An accepted APP:INITIALIZE finds the flag down and leaves it raised. No accepted event lowers it. |
| `AppContext.InitializedAtMostOnce` | src/contexts/app/reducer.ts:4-14 | Over any run of events, at most one APP:INITIALIZE is accepted, and none when the state is already initialised. |
| `AppContext.TwiceFromInitialState` | src/contexts/app/reducer.ts:4-20 | From the empty initial state, the first of two APP:INITIALIZE events succeeds and the second throws. One APP:INITIALIZED is emitted in all. |
| `ApiSocket.Inert` | src/contexts/app/api/socket/context.ts:4-6 | For every event the reducer does not throw, returns the state unchanged, and emits and queries nothing. |
| `ApiSocket.RunIsInert` | src/contexts/app/api/socket/context.ts:4-11 | Any run from any state ends in that state and emits nothing. |
| `ApiSocket.InitialStateKept` | src/contexts/app/api/socket/context.ts:4-11 | Started from the initial state, any run stays in it and emits nothing. |
| `ApiRest.Inert` | src/contexts/app/api/rest/context.ts:3-5 | For every event the reducer does not throw, returns the state unchanged, and emits and queries nothing. |
| `ApiRest.RunIsInert` | src/contexts/app/api/rest/context.ts:3-10 | Any run from any state ends in that state and emits nothing. |
| `ApiRest.InitialStateKept` | src/contexts/app/api/rest/context.ts:3-10 | Started from the initial state, any run stays in it and emits nothing. |
| `RpcGetInfo.HandlersDistinct` | server/src/contexts/app/rpc/getInfo/context.ts:61-65 | The two reduce types of the chain are distinct, so at most one handler runs. |
| `RpcGetInfo.InitializeQueriesLatest` | server/src/contexts/app/rpc/getInfo/context.ts:56-63 | INITIALIZE in any state issues one LATEST_RPC_GET_INFO query without payload. It changes no state, emits nothing and never throws, however often it comes. |
| `RpcGetInfo.LatestInfoResponse` | server/src/contexts/app/rpc/getInfo/context.ts:40-54 | The response becomes `last` and every other field is kept. Exactly one UPDATED event carries the response, and nothing is queried. |
| `RpcGetInfo.OtherEventsIgnored` | server/src/contexts/app/rpc/getInfo/context.ts:61-65 | Every other event type leaves the state unchanged, with nothing emitted or queried. |
| `RpcGetInfo.NeverThrowsKeepsBlocks` | server/src/contexts/app/rpc/getInfo/context.ts:40-65 | The reducer never throws, and no event changes `blocks`. |
| `RpcGetInfo.BlocksStayZero` | server/src/contexts/app/rpc/getInfo/context.ts:40-69 | Over any run from the initial state `{blocks: 0}`, `blocks` stays 0. |
| `RpcGetInfo.InitializeThenAnswer` | server/src/contexts/app/rpc/getInfo/context.ts:40-69 | INITIALIZE followed by its answer ends in `{blocks: 0, last: answer}`. The only event emitted is UPDATED with the answer. |
| `BlocksWidget.HandlersDistinct` | src/contexts/widgets/blocks/context.ts:33-37 | The two reduce types of the chain are distinct. |
| `BlocksWidget.InitializeOnce` | src/contexts/widgets/blocks/context.ts:4-18 | INITIALIZE throws `isAlreadyInitialized` when initialised, and a TypeError on a null payload. Otherwise it raises the flag, takes `id` and `variant` from the payload, keeps the other fields, emits nothing and issues one LATEST_BLOCK_DETAILS query. |
| `BlocksWidget.FirstInitialize` | src/contexts/widgets/blocks/context.ts:4-43 | From the empty initial state, the first INITIALIZE with a payload gives exactly `{isInitialized: true, id, variant}` and one LATEST_BLOCK_DETAILS query. A second INITIALIZE is then refused with `isAlreadyInitialized`. |
| `BlocksWidget.LatestBlockDetailsResponse` | src/contexts/widgets/blocks/context.ts:19-31 | The response emits exactly one INITIALIZED event. Its payload is `{variant: state.variant}` overlaid with the response's fields, and a response key wins on a clash. State is unchanged and nothing is queried. |
| `BlocksWidget.OtherEventsIgnored` | src/contexts/widgets/blocks/context.ts:33-37 | Every other event type leaves the state unchanged, with nothing emitted or queried. |
| `BlocksWidget.InitializedAtMostOnce` | src/contexts/widgets/blocks/context.ts:4-37 | Over any run, at most one INITIALIZE is accepted, and none once initialised. |
| `CarverUser.HandlersDistinct` | server/src/contexts/app/carverUser/context.ts:171-191 | The six reduce types of the chain are distinct. |
| `CarverUser.Dispatch` | server/src/contexts/app/carverUser/context.ts:171-191 | An event of a chain type reaches exactly the handler for that type. |
| `CarverUser.InitializeOnce` | server/src/contexts/app/carverUser/context.ts:153-169 | INITIALIZE throws when initialised, and a TypeError on a null payload. Otherwise it sets `id` and `isInitialized`, emits one INITIALIZED `{id, coin}`, and issues one ADD_PAGE_WIDGET_CONTEXTS query. That query names the pathname's page, `pushHistory: false`, and the current widget ids in order. It throws exactly when those ids are unreadable. |
| `CarverUser.InitializeAccepted` | server/src/contexts/app/carverUser/context.ts:158-168 | On an uninitialised state and a non-null payload, the INITIALIZE handler's set, emit and navigation compose as in `CarverUser.InitializeOnce`. It fails exactly when the current widgets' ids are unreadable. |
| `CarverUser.Navigate` | server/src/contexts/app/carverUser/context.ts:125-142 | NAVIGATE issues one ADD_PAGE_WIDGET_CONTEXTS query for the page, with `pushHistory: true` and the current widgets' ids in order to remove. There is no state change and no event. |
| `CarverUser.NavigateByPathname` | server/src/contexts/app/carverUser/context.ts:125-151 | NAVIGATE_BY_PATHNAME makes the same query for the pathname's page and passes the given `pushHistory` through unchanged. A null payload is a TypeError. |
| `CarverUser.PageWidgetContextsReplaced` | server/src/contexts/app/carverUser/context.ts:49-74 | The response sets `page` and `widgetContexts` and emits one NAVIGATED `{page, widgetContexts, pushHistory, removedIds}`. It queries INITIALIZE_WIDGETS with the new ids in order, and throws on a null payload or unreadable ids. |
| `CarverUser.WidgetsEmitRelayed` | server/src/contexts/app/carverUser/context.ts:77-85 | WIDGETS:EMIT re-emits the payload unchanged as WIDGETS:EMITTED, with no state change and no query. |
| `CarverUser.WidgetsCommandDispatched` | server/src/contexts/app/carverUser/context.ts:86-89 | WIDGETS:COMMAND issues exactly one DISPATCH_TO_WIDGET query carrying the payload, with no emit and no state change. |
| `CarverUser.OtherEventsIgnored` | server/src/contexts/app/carverUser/context.ts:171-191 | Any event type outside the chain leaves the state unchanged, with nothing emitted or queried. |
| `CarverUser.StepKeepsConsistent` | server/src/contexts/app/carverUser/context.ts:49-191 | Every accepted event keeps the widget ids readable, `isConnected` false and `coin` as configured. It never lowers `isInitialized`, and an accepted INITIALIZE raises it. |
| `CarverUser.RunStaysConsistent` | server/src/contexts/app/carverUser/context.ts:125-258 | From the initial state (`id` null, flags false, no widgets, the configured coin), every run reaches a consistent state, where NAVIGATE never throws. |
| `CarverUser.InitializedAtMostOnce` | server/src/contexts/app/carverUser/context.ts:153-191 | Over any run, at most one INITIALIZE is accepted, and none once initialised. |
| `NetworkIds.NetworkIdBuilt` | server/src/classes/contexts/contextMap.ts:88-94 | For any names: with no context the id is `[store][contextId]`; with one it is `[store][type]`, followed by `[contextId]` only when the id is truthy. |
| `NetworkIds.NetworkIdReadsBack` | server/src/classes/contexts/contextMap.ts:88-94 | When the store, type and id contain no brackets, the id reads back into exactly those segments. |
| `NetworkIds.NetworkIdDistinguishes` | server/src/classes/contexts/contextMap.ts:88-94 | When the store, types and ids contain no brackets, two contexts of one store share a network id (a queue name) only if they have the same type and, for truthy ids, the same id. |
| `NetworkIds.BracketedNamesCollide` | server/src/classes/contexts/contextMap.ts:88-94 | With brackets in a name, two different contexts share a queue: type `A][B` with no id and type `A` with id `B` both give `[s][A][B]`. |
| `Protocol.Throws` | server/src/classes/contexts/contextMap.ts:118-208 | A message throws exactly when its type is unknown, a query request is null, or a stream response's id is unknown or its event is null. It also throws when a query response's id is unknown or belongs to a stream callback. A throw acknowledges and sends nothing and stops the consumer; every other message gets exactly one decision for its own tag. |
| `Protocol.HaltedStaysHalted` | server/src/classes/contexts/contextMap.ts:61 | A consumer stuck on an unacknowledged message takes nothing more, whatever arrives. |
| `Protocol.QueryRequestAnswered` | server/src/classes/contexts/contextMap.ts:143-161 | A query request with a defined answer gets exactly one QUERY_RESPONSE, sent to `replyTo` with its correlation id and that answer, then an ack. A failing query is nacked without requeue and gets no reply. So is an undefined answer, because encoding it throws inside the try before the reply is sent. |
| `Protocol.QueryLeftPending` | server/src/classes/contexts/contextMap.ts:143-161 | A query that fails, or whose answer is undefined, is nacked by the target with nothing sent back. The caller's resolver stays pending and gains no resolution. |
| `Protocol.Sendable` | server/src/classes/contexts/contextMap.ts:127-134 | The events the stream callback manages to send: never an undefined one (encoding it throws before the send), all of them when all are defined, none when none is. |
| `Protocol.SendableConcat` | server/src/classes/contexts/contextMap.ts:127-134 | Sending keeps replay order: what is sent for `a + b` is what is sent for `a` followed by what is sent for `b`. |
| `Protocol.SendableOne` | server/src/classes/contexts/contextMap.ts:127-134 | A single event is sent exactly when it is defined. |
| `Protocol.SendableCounts` | server/src/classes/contexts/contextMap.ts:127-134 | Every defined event is sent as often as it was replayed, and no undefined one. |
| `Protocol.StreamRequestAnswered` | server/src/classes/contexts/contextMap.ts:120-142 | A stream request forwards each defined replayed event in order as one EVENT_STREAM_RESPONSE to `replyTo`, with the request's correlation id. It then acks, or nacks without requeue when the replay fails. |
| `Protocol.StreamRequestServed` | server/src/classes/contexts/contextMap.ts:120-142 | A successful replay of defined events sends exactly one response per event, in order, and acks; the target's state is untouched. |
| `Protocol.StreamResponseQueued` | server/src/classes/contexts/contextMap.ts:163-189 | A stream response for a pending id goes to the back of its event type's queue and is acked. A new queue captures this correlation id and an existing queue keeps its own. The pending entry and the other queues are kept. |
| `Protocol.QueryResponseResolvesOnce` | server/src/classes/contexts/contextMap.ts:191-205 | A query response removes the pending entry, resolves it with the reply and acks. A second response with the same id throws without an ack. |
| `Protocol.ResolvedAtMostOnce` | server/src/classes/contexts/contextMap.ts:191-205 | Over any sequence of messages, pending entries are only ever removed. Each correlation id is resolved at most once, and never when it was not pending. |
| `Protocol.ReceiveStreamResponses` | server/src/classes/contexts/contextMap.ts:163-189 | Responses of one pending stream and one event type are each acked and queued one behind another in arrival order, in the single queue for that type. Nothing is sent, resolved or handed on meanwhile. |
| `Protocol.StreamDelivered` | server/src/classes/contexts/contextMap.ts:163-189 | A caller with no queue yet for event type `t` receives a stream's responses, all of type `t`, and acks each of them. That many worker turns then hand every event, in order, to that stream's callback, and the stream's entry stays pending. |
| `Protocol.DrainInOrder` | server/src/classes/contexts/contextMap.ts:171-185 | Per event type, first in first out: `k` worker turns hand the first `k` queued events on in order. All of them go to the callback of the id that queue captured. |
| `Protocol.QueryRoundTrip` | server/src/classes/contexts/contextMap.ts:240-256 | A query sent under a fresh id, answered by the target with a defined value and received back, leaves the caller's pending entries as they were. It adds one resolution carrying the target's answer and acknowledges both messages. |
| `Protocol.StreamRoundTrip` | server/src/classes/contexts/contextMap.ts:225-238 | Consider the first stream of event type `t` at a caller: requested under a fresh id, and replayed by the target with events all of type `t`. Every replayed event then reaches the caller's callback, in replay order. The target's request and every response are acked, and the callback stays pending. |
| `Protocol.CapturedCorrelationId` | server/src/classes/contexts/contextMap.ts:172-181 | Events of one type from two different streams both reach the callback of the stream whose response created the queue. |
| `ContextMaps.Consumer.Handle` | server/src/classes/contexts/contextMap.ts:115-210 | The consumer's new state and the channel's logs are exactly what `Protocol.Handle` gives for the old state and the message. |
| `ContextMaps.Consumer.ServeStreamRequest` | server/src/classes/contexts/contextMap.ts:120-142 | Handling a stream request is exactly `Protocol.HandleStreamRequest`. |
| `ContextMaps.Consumer.SendReplayed` | server/src/classes/contexts/contextMap.ts:127-134 | The callback's sends append exactly one response per defined event, in order, to the channel's log. |
| `ContextMaps.Consumer.ServeQueryRequest` | server/src/classes/contexts/contextMap.ts:143-161 | Handling a query request is exactly `Protocol.HandleQueryRequest`. |
| `ContextMaps.Consumer.QueueStreamResponse` | server/src/classes/contexts/contextMap.ts:163-189 | Handling a stream response is exactly `Protocol.HandleStreamResponse`. |
| `ContextMaps.Consumer.ResolveQueryResponse` | server/src/classes/contexts/contextMap.ts:191-205 | Handling a query response is exactly `Protocol.HandleQueryResponse`. |
| `ContextMaps.Consumer.DeliverNext` | server/src/classes/contexts/contextMap.ts:173-181 | One turn of a stream queue's worker is exactly `Protocol.DeliverNext`. |
| `ContextMaps.RemoteContext.StreamEvents` | server/src/classes/contexts/contextMap.ts:225-238 | The callback waits under the correlation id in the caller's map. One EVENT_STREAM_REQUEST goes to the remote queue carrying only `type`, `sequence` and `sessionOnly`, with `replyTo` set to the caller's id. |
| `ContextMaps.RemoteContext.QueryStorage` | server/src/classes/contexts/contextMap.ts:240-256 | A resolver waits under the correlation id in the caller's map, never the target's. One QUERY_REQUEST `{type, payload}` goes to the remote queue with `replyTo` set to the caller's id. |
| `ContextMaps.ContextStore.Register` | server/src/classes/contexts/contextMap.ts:99-116 | A fresh context under its network id is added to `registeredContexts` and to `registeredContextsById` under that id. That id's queue is declared and consumed, and the by-id invariant is kept. |
| `ContextMaps.ContextStore.GetRemote` | server/src/classes/contexts/contextMap.ts:218-262 | The proxy targets the queue named by the network id and answers to the given caller on the shared channel. |
| `ContextMaps.ContextStore.Unregister` | server/src/classes/contexts/contextMap.ts:264-268 | Computes the network id and changes nothing. |
| `ContextMaps.ContextMap.GetContextStore` | server/src/classes/contexts/contextMap.ts:72-83 | A cached id returns the cached store and changes nothing. A new id creates exactly one empty store and caches it, so a repeated call returns the same store. Every cached store, the returned one included, keeps each registered context under its own network id. |

## Left out

- Network I/O: amqplib's connection, channel, `assertQueue`, `consume`, `sendToQueue`, `ack` and `nack` become the logs of `ContextMaps.Channel`. Broker routing from queue to consumer is a parameter (`Protocol.Deliver`).
- JSON encoding of message bodies. Bodies are values, so JSON dropping `undefined`-valued keys and failing on unparsable content are not modelled.
- `uuidv4`: correlation ids are parameters, and the lemmas that need fresh ones require them to be absent from the caller's map.
- `await` interleavings and concurrent calls. Two concurrent `getContextStore` calls for a new id could both create a store in the source; here calls are sequential. The async queue's own scheduling is reduced to explicit `DeliverNext` turns.
- `Protocol.StreamRoundTrip`: covers only the first stream of its event type at the caller, with events that all share that type. A stream of several types (such as `type: '*'`) is delivered in order within each type only, because each type has its own queue and worker. A later stream of an already queued type goes to the callback that queue captured, as `Protocol.CapturedCorrelationId` shows, because queues are never removed.
- `Protocol.StreamDelivered`: requires that the caller has no queue for the events' type yet, and that all events share it, for the same reasons: with an existing queue the events go to the callback it captured.
- `NetworkIds.NetworkIdDistinguishes` holds only for names without brackets. The source does not check names, and `NetworkIds.BracketedNamesCollide` gives two different contexts that share one queue.
- A consumer whose `consume` callback throws is modelled as receiving nothing more, since the message stays unacknowledged under `prefetch(1)`. This assumes the rejected callback does not end the process. Node.js 15 and later end the process on an unhandled rejection by default, which would stop every consumer.
- What `streamEvents` does when the callback rejects on an undefined event. The event is never sent, because encoding it throws before `sendToQueue`. Whether the request is then acked or nacked is the replay's `failed` flag, supplied by `Protocol.Behaviour`.
- What `async.queue` does after a failing worker, and what a stream callback does with an event. A delivery is recorded, or marked undeliverable when the entry is missing or is a resolver.
- `ContextMaps.RemoteContext.QueryStorage`: models the sending half only. The awaited reply appears as a resolution at the caller's consumer (`Protocol.QueryRoundTrip`).
- Rejection of pending queries: the source never calls `reject`, and the model has nothing for it.
- A request without a `replyTo` property. Every request this module sends carries one; such a message is delivered with an empty `replyTo`.
- Stream queues keyed by an object-typed event `type`: JavaScript compares `Map` keys of objects by identity, and the model compares values.
- `createRegisteredContext`, the registered context's `query` and `streamEvents`, and its state store are not part of this model. They become the `Protocol.Behaviour` parameter and a fresh `ContextMaps.RegisteredContext`.
- The `withState` implementation is not part of this model. Its semantics are inferred from its uses, as described above.
- `getPage`, `findPageByPathname` and `config.coin` are not part of this model. They are the `CarverUser.Env` parameter.
- The `commonLanguage` objects of the socket and rest API contexts are empty and nothing reads them, so they have no counterpart.
- `console.log` calls, commented-out handlers and `checkRpcErrors`.
- Numbers are integers, so JavaScript floating point and `NaN` are not modelled.
- Object spread of a string or an array in the blocks widget: only an object response contributes keys.
- APP:INITIALIZED is emitted in the source as a bare string. Here it is an event of that type with an undefined payload.
- The MongoDB bindings, the widget and sync bindings, and the React client.

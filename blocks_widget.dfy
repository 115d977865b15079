/** The blocks widget context (src/contexts/widgets/blocks/context.ts). */
module BlocksWidget {
  import opened Wrappers
  import opened Values
  import opened WithState
  import opened Replay

  const Initialize: string := "INITIALIZE"
  const LatestBlockDetails: string := "LATEST_BLOCK_DETAILS"
  const Initialized: string := "INITIALIZED"
  const IsAlreadyInitialized: string := "You can only initialize state once"

  /** The initial state is the empty object. */
  function InitialState(): Fields {
    map[]
  }

  /** The own properties `{ ...v }` copies: an object's fields; undefined, null and the other primitives add none. */
  function Spread(v: Value): Fields {
    if v.Obj? then v.fields else map[]
  }

  /** `withInitialize`: refuses a second initialisation, otherwise records `id` and `variant` and asks for the latest block details. */
  function WithInitialize(state: Fields, event: Event): Outcome {
    if Truthy(Field(state, "isInitialized")) then
      Failure(Thrown(IsAlreadyInitialized))
    else
      var id :- Prop(event.payload, "id");
      var variant :- Prop(event.payload, "variant");
      Success(Query(Set(Start(state), map["isInitialized" := Bool(true), "id" := id, "variant" := variant]),
                    LatestBlockDetails, Undefined))
  }

  /** `withQueryLatestBlockDetails`: emit INITIALIZED with `{ variant, ...response }`. */
  function WithQueryLatestBlockDetails(state: Fields, event: Event): Outcome {
    var response := event.payload;
    var variant := Field(state, "variant");
    Success(Emit(Start(state), Event(Str(Initialized), Obj(map["variant" := variant] + Spread(response)))))
  }

  function Handlers(): seq<(string, Handler)> {
    [(Initialize, WithInitialize), (LatestBlockDetails, WithQueryLatestBlockDetails)]
  }

  function Reducer(state: Fields, event: Event): Outcome {
    Chain(Success(Start(state)), event, Handlers())
  }

  lemma HandlersDistinct()
    ensures DistinctTypes(Handlers())
  {
  }

  /**
    INITIALIZE: throws `isAlreadyInitialized` on an initialised state; throws a
    TypeError when the payload is undefined or null; otherwise raises
    `isInitialized`, takes `id` and `variant` from the payload, keeps every other
    field, emits nothing and issues one LATEST_BLOCK_DETAILS query.
   */
  lemma {:induction false} InitializeOnce(state: Fields, payload: Value)
    ensures Raised(state, "isInitialized") ==>
              Reducer(state, Event(Str(Initialize), payload)) == Failure(Thrown(IsAlreadyInitialized))
    ensures !Raised(state, "isInitialized") && Nullish(payload) ==>
              Reducer(state, Event(Str(Initialize), payload)) == Failure(TypeError("id"))
    ensures !Raised(state, "isInitialized") && !Nullish(payload) ==>
              && Reducer(state, Event(Str(Initialize), payload)).Success?
              && var a := Reducer(state, Event(Str(Initialize), payload)).value;
              && a.state.Keys == state.Keys + {"isInitialized", "id", "variant"}
              && a.state["isInitialized"] == Bool(true)
              && a.state["id"] == Get(payload, "id")
              && a.state["variant"] == Get(payload, "variant")
              && (forall k :: k in state && k !in {"isInitialized", "id", "variant"} ==> a.state[k] == state[k])
              && a.emitted == []
              && a.queries == [QueryRequest(LatestBlockDetails, Undefined)]
  {
    var e := Event(Str(Initialize), payload);
    HandlersDistinct();
    ChainDispatch(state, e, Handlers());
    assert Matches(e, Handlers(), 0);
    assert Reducer(state, e) == WithInitialize(state, e);
    assert [] + [QueryRequest(LatestBlockDetails, Undefined)] == [QueryRequest(LatestBlockDetails, Undefined)];
  }

  /**
    From the initial state the first INITIALIZE with a payload is accepted:
    the state becomes exactly `{isInitialized: true, id, variant}` and the
    latest block details are asked for; a second INITIALIZE is then refused.
   */
  lemma FirstInitialize(payload: Value, again: Value)
    requires !Nullish(payload)
    ensures var first := Reducer(InitialState(), Event(Str(Initialize), payload));
            && first == Success(Acc(map["isInitialized" := Bool(true), "id" := Get(payload, "id"), "variant" := Get(payload, "variant")],
                                    [], [QueryRequest(LatestBlockDetails, Undefined)]))
            && Reducer(first.value.state, Event(Str(Initialize), again)) == Failure(Thrown(IsAlreadyInitialized))
  {
    InitializeOnce(InitialState(), payload);
    var a := Reducer(InitialState(), Event(Str(Initialize), payload)).value;
    assert a.state == map["isInitialized" := Bool(true), "id" := Get(payload, "id"), "variant" := Get(payload, "variant")];
    InitializeOnce(a.state, again);
  }

  /**
    The LATEST_BLOCK_DETAILS response: exactly one INITIALIZED event whose payload
    is the state's `variant` overlaid with the response's fields (a response
    field wins on a clash); the state is unchanged and nothing is queried.
   */
  lemma {:induction false} LatestBlockDetailsResponse(state: Fields, response: Value)
    ensures Reducer(state, Event(Str(LatestBlockDetails), response)).Success?
    ensures var a := Reducer(state, Event(Str(LatestBlockDetails), response)).value;
            && a.state == state
            && a.queries == []
            && |a.emitted| == 1
            && a.emitted[0].kind == Str(Initialized)
            && a.emitted[0].payload.Obj?
            && var p := a.emitted[0].payload.fields;
            && p.Keys == {"variant"} + Spread(response).Keys
            && (forall k :: k in Spread(response) ==> p[k] == Spread(response)[k])
            && ("variant" !in Spread(response) ==> p["variant"] == Field(state, "variant"))
  {
    var e := Event(Str(LatestBlockDetails), response);
    HandlersDistinct();
    ChainDispatch(state, e, Handlers());
    assert Matches(e, Handlers(), 1);
    assert Reducer(state, e) == WithQueryLatestBlockDetails(state, e);
  }

  /** Every other event type leaves the state as it is, emitting and querying nothing. */
  lemma {:induction false} OtherEventsIgnored(state: Fields, event: Event)
    requires event.kind != Str(Initialize) && event.kind != Str(LatestBlockDetails)
    ensures Reducer(state, event) == Success(Acc(state, [], []))
  {
    HandlersDistinct();
    ChainDispatch(state, event, Handlers());
    assert !Matches(event, Handlers(), 0) && !Matches(event, Handlers(), 1);
  }

  /** Over any run, from any state, at most one INITIALIZE is accepted, and none once initialised. */
  lemma InitializedAtMostOnce(s: Fields, es: seq<Event>)
    ensures Accepted(Reducer, s, es, Initialize) <= 1
    ensures Raised(s, "isInitialized") ==> Accepted(Reducer, s, es, Initialize) == 0
  {
    forall t: Fields, e: Event
      ensures e.kind == Str(Initialize) && Reducer(t, e).Success? ==>
                !Raised(t, "isInitialized") && Raised(Reducer(t, e).value.state, "isInitialized")
      ensures Raised(t, "isInitialized") && Reducer(t, e).Success? ==> Raised(Reducer(t, e).value.state, "isInitialized")
    {
      if e.kind == Str(Initialize) {
        InitializeOnce(t, e.payload);
      } else if e.kind == Str(LatestBlockDetails) {
        LatestBlockDetailsResponse(t, e.payload);
      } else {
        OtherEventsIgnored(t, e);
      }
    }
    AcceptedAtMostOnce(Reducer, s, es, Initialize, "isInitialized");
  }
}

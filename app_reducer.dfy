/** The application context's reducer (src/contexts/app/reducer.ts). */
module AppContext {
  import opened Wrappers
  import opened Values
  import opened WithState
  import opened Replay

  const AppInitialize: string := "APP:INITIALIZE"
  const AppInitialized: string := "APP:INITIALIZED"
  const IsAlreadyInitialized: string := "You can only initialize state once"

  /** The initial state is the empty object. */
  function InitialState(): Fields {
    map[]
  }

  /**
    `withRequestAppInitialize`: refuses a second initialisation, otherwise
    raises `isInitialized` and emits APP:INITIALIZED. The source emits the bare
    string; here that is an event of that type with no payload.
   */
  function WithRequestAppInitialize(state: Fields, event: Event): Outcome {
    if Truthy(Field(state, "isInitialized")) then
      Failure(Thrown(IsAlreadyInitialized))
    else
      Success(Emit(Set(Start(state), map["isInitialized" := Bool(true)]), Event(Str(AppInitialized), Undefined)))
  }

  function Handlers(): seq<(string, Handler)> {
    [(AppInitialize, WithRequestAppInitialize)]
  }

  function Reducer(state: Fields, event: Event): Outcome {
    Chain(Success(Start(state)), event, Handlers())
  }

  /** APP:INITIALIZE throws on an initialised state; otherwise it raises the flag and emits APP:INITIALIZED once, querying nothing. */
  lemma {:induction false} Initialize(state: Fields, payload: Value)
    ensures Raised(state, "isInitialized") ==>
              Reducer(state, Event(Str(AppInitialize), payload)) == Failure(Thrown(IsAlreadyInitialized))
    ensures !Raised(state, "isInitialized") ==>
              Reducer(state, Event(Str(AppInitialize), payload))
              == Success(Acc(state["isInitialized" := Bool(true)], [Event(Str(AppInitialized), Undefined)], []))
  {
    var e := Event(Str(AppInitialize), payload);
    ChainDispatch(state, e, Handlers());
    assert Matches(e, Handlers(), 0);
    assert Reducer(state, e) == WithRequestAppInitialize(state, e);
    if !Raised(state, "isInitialized") {
      var ev := Event(Str(AppInitialized), Undefined);
      assert Start(state).emitted + [ev] == [ev];
      assert state + map["isInitialized" := Bool(true)] == state["isInitialized" := Bool(true)];
    }
  }

  /** Every other event type leaves the state as it is, emitting and querying nothing. */
  lemma {:induction false} OtherEventsIgnored(state: Fields, event: Event)
    requires event.kind != Str(AppInitialize)
    ensures Reducer(state, event) == Success(Acc(state, [], []))
  {
    ChainDispatch(state, event, Handlers());
    assert !Matches(event, Handlers(), 0);
  }

  /** No accepted invocation lowers `isInitialized`, and APP:INITIALIZE is accepted only while it is down. */
  lemma InitializeGuarded()
    ensures GuardedBy(Reducer, AppInitialize, "isInitialized")
    ensures Keeps(Reducer, t => Raised(t, "isInitialized"))
  {
    forall s: Fields, e: Event
      ensures e.kind == Str(AppInitialize) && Reducer(s, e).Success? ==>
                !Raised(s, "isInitialized") && Raised(Reducer(s, e).value.state, "isInitialized")
      ensures Raised(s, "isInitialized") && Reducer(s, e).Success? ==> Raised(Reducer(s, e).value.state, "isInitialized")
    {
      if e.kind == Str(AppInitialize) {
        Initialize(s, e.payload);
      } else {
        OtherEventsIgnored(s, e);
      }
    }
  }

  /** Over any run, from any state, at most one APP:INITIALIZE is accepted. */
  lemma InitializedAtMostOnce(s: Fields, es: seq<Event>)
    ensures Accepted(Reducer, s, es, AppInitialize) <= 1
    ensures Raised(s, "isInitialized") ==> Accepted(Reducer, s, es, AppInitialize) == 0
  {
    InitializeGuarded();
    AcceptedAtMostOnce(Reducer, s, es, AppInitialize, "isInitialized");
  }

  /** Two successive APP:INITIALIZE events on the initial state: the first is accepted and emits once, the second throws. */
  lemma TwiceFromInitialState(p1: Value, p2: Value)
    ensures Reducer(InitialState(), Event(Str(AppInitialize), p1)).Success?
    ensures Reducer(Step(Reducer, InitialState(), Event(Str(AppInitialize), p1)), Event(Str(AppInitialize), p2))
            == Failure(Thrown(IsAlreadyInitialized))
    ensures Emitted(Reducer, InitialState(), [Event(Str(AppInitialize), p1), Event(Str(AppInitialize), p2)])
            == [Event(Str(AppInitialized), Undefined)]
  {
    var s := InitialState();
    Initialize(s, p1);
    var s' := Step(Reducer, s, Event(Str(AppInitialize), p1));
    Initialize(s', p2);
    var es := [Event(Str(AppInitialize), p1), Event(Str(AppInitialize), p2)];
    assert es[1..] == [Event(Str(AppInitialize), p2)];
    assert es[1..][1..] == [];
    assert Emitted(Reducer, s', es[1..]) == [];
  }
}

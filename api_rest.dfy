/** The rest API context (src/contexts/app/api/rest/context.ts): a context that ignores every event. */
module ApiRest {
  import opened Wrappers
  import opened Values
  import opened WithState
  import opened Replay

  /** The initial state is the empty object. */
  function InitialState(): Fields {
    map[]
  }

  /** `withState(state)` and nothing else. */
  function Reducer(state: Fields, event: Event): Outcome {
    Success(Start(state))
  }

  /** For every event, whatever its type: no throw, the state unchanged, nothing emitted or queried. */
  lemma Inert(state: Fields, event: Event)
    ensures Reducer(state, event).Success?
    ensures Reducer(state, event).value.state == state
    ensures Reducer(state, event).value.emitted == [] && Reducer(state, event).value.queries == []
  {
  }

  /** Any run leaves the state where it started and emits nothing. */
  lemma {:induction false} RunIsInert(s: Fields, es: seq<Event>)
    ensures Run(Reducer, s, es) == s
    ensures Emitted(Reducer, s, es) == []
    decreases |es|
  {
    if es != [] {
      RunIsInert(s, es[1..]);
    }
  }

  /** Started from its initial state, the context stays there whatever it is sent, and never emits. */
  lemma InitialStateKept(es: seq<Event>)
    ensures Run(Reducer, InitialState(), es) == InitialState()
    ensures Emitted(Reducer, InitialState(), es) == []
  {
    RunIsInert(InitialState(), es);
  }
}

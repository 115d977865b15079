/**
  Driving a context's reducer with its ordered inbound event stream. An
  invocation that throws is rejected as a whole: the state stays as it was and
  nothing it emitted or queried takes effect.
 */
module Replay {
  import opened Wrappers
  import opened Values
  import opened WithState

  type Reducer = (Fields, Event) -> Outcome

  /** The state after handling one event. */
  function Step(reducer: Reducer, s: Fields, e: Event): Fields {
    var o := reducer(s, e);
    if o.Success? then o.value.state else s
  }

  /** The state after handling `es` in order. */
  function Run(reducer: Reducer, s: Fields, es: seq<Event>): Fields
    decreases |es|
  {
    if es == [] then s else Run(reducer, Step(reducer, s, es[0]), es[1..])
  }

  /** The events a run emits, invocation by invocation, in order. */
  function Emitted(reducer: Reducer, s: Fields, es: seq<Event>): seq<Event>
    decreases |es|
  {
    if es == [] then []
    else
      var o := reducer(s, es[0]);
      (if o.Success? then o.value.emitted else []) + Emitted(reducer, Step(reducer, s, es[0]), es[1..])
  }

  /** How many events of type `kind` a run accepts. */
  function Accepted(reducer: Reducer, s: Fields, es: seq<Event>, kind: string): nat
    decreases |es|
  {
    if es == [] then 0
    else
      (if es[0].kind == Str(kind) && reducer(s, es[0]).Success? then 1 else 0)
      + Accepted(reducer, Step(reducer, s, es[0]), es[1..], kind)
  }

  /** Every accepted invocation keeps `inv`. */
  ghost predicate Keeps(reducer: Reducer, inv: Fields -> bool) {
    forall s, e :: inv(s) && reducer(s, e).Success? ==> inv(reducer(s, e).value.state)
  }

  /** An invariant every accepted invocation keeps holds after any run. */
  lemma {:induction false} RunKeeps(reducer: Reducer, inv: Fields -> bool, s: Fields, es: seq<Event>)
    requires Keeps(reducer, inv) && inv(s)
    ensures inv(Run(reducer, s, es))
    decreases |es|
  {
    if es != [] {
      RunKeeps(reducer, inv, Step(reducer, s, es[0]), es[1..]);
    }
  }

  /** `flag` is truthy in `s`. */
  predicate Raised(s: Fields, flag: string) {
    Truthy(Field(s, flag))
  }

  /** An event of type `kind` is accepted only while `flag` is down, and raises it. */
  ghost predicate GuardedBy(reducer: Reducer, kind: string, flag: string) {
    forall s: Fields, e: Event :: e.kind == Str(kind) && reducer(s, e).Success? ==>
      !Raised(s, flag) && Raised(reducer(s, e).value.state, flag)
  }

  /**
    Initialisation happens at most once: when an event type is guarded by a flag
    that no accepted invocation lowers, a run accepts at most one event of that
    type, and none once the flag is raised.
   */
  lemma {:induction false} AcceptedAtMostOnce(reducer: Reducer, s: Fields, es: seq<Event>, kind: string, flag: string)
    requires GuardedBy(reducer, kind, flag)
    requires Keeps(reducer, t => Raised(t, flag))
    ensures Accepted(reducer, s, es, kind) <= 1
    ensures Raised(s, flag) ==> Accepted(reducer, s, es, kind) == 0
    decreases |es|
  {
    if es != [] {
      var s' := Step(reducer, s, es[0]);
      AcceptedAtMostOnce(reducer, s', es[1..], kind, flag);
      if es[0].kind == Str(kind) && reducer(s, es[0]).Success? {
        assert Raised(s', flag);
      } else if Raised(s, flag) {
        assert Raised(s', flag);
      }
    }
  }
}

/**
  The state-transition accumulator every context reducer is written with
  (`withState(state).set(..).emit(..).query(..).reduce(..)`). Its own source
  is not part of this model; what is here is inferred from how the reducers
  use it: `set` merges fields into the working state, `emit` and `query`
  append, a typed `reduce` runs its callback only when the event's type is the
  given string, an untyped `reduce` runs it unconditionally, and a throw
  anywhere aborts the whole invocation.
 */
module WithState {
  import opened Wrappers
  import opened Values

  /** An event as a reducer receives it or emits it; `kind` is its `type` property. Events a handler builds for an untyped `reduce` have no type. */
  datatype Event = Event(kind: Value, payload: Value)

  /** A side-effecting query issued by `.query(kind, payload)`. */
  datatype QueryRequest = QueryRequest(kind: string, payload: Value)

  /** The working value: current state, events emitted so far, queries issued so far. */
  datatype Acc = Acc(state: Fields, emitted: seq<Event>, queries: seq<QueryRequest>)

  /** One reducer invocation either completes with an accumulator or throws. */
  type Outcome = Result<Acc, Fault>

  type Handler = (Fields, Event) -> Outcome

  /** `withState(state)` */
  function Start(state: Fields): Acc {
    Acc(state, [], [])
  }

  /** `.set(fields)`: the given fields overwrite, every other field is kept. */
  function Set(a: Acc, fields: Fields): Acc {
    a.(state := a.state + fields)
  }

  /** `.emit(event)` */
  function Emit(a: Acc, e: Event): Acc {
    a.(emitted := a.emitted + [e])
  }

  /** `.query(kind, payload)` */
  function Query(a: Acc, kind: string, payload: Value): Acc {
    a.(queries := a.queries + [QueryRequest(kind, payload)])
  }

  /** Continue `a` with what a callback produced from `a.state`: its state replaces the working state, its effects follow `a`'s. */
  function Then(a: Acc, r: Outcome): Outcome {
    var b :- r;
    Success(Acc(b.state, a.emitted + b.emitted, a.queries + b.queries))
  }

  /** `.reduce({ type, event, callback })`; `kind` is the `type` string */
  function Reduce(o: Outcome, kind: string, event: Event, callback: Handler): Outcome {
    var a :- o;
    if event.kind == Str(kind) then Then(a, callback(a.state, event)) else Success(a)
  }

  /** `.reduce({ callback, event })` without a type: the callback always runs. */
  function ReduceAny(o: Outcome, event: Event, callback: Handler): Outcome {
    var a :- o;
    Then(a, callback(a.state, event))
  }

  /** A reducer body: `withState(state)` followed by one typed `.reduce` per entry, in order. */
  function Chain(o: Outcome, event: Event, handlers: seq<(string, Handler)>): Outcome
    decreases |handlers|
  {
    if handlers == [] then o
    else Chain(Reduce(o, handlers[0].0, event, handlers[0].1), event, handlers[1..])
  }

  predicate DistinctTypes(handlers: seq<(string, Handler)>) {
    forall i, j :: 0 <= i < j < |handlers| ==> handlers[i].0 != handlers[j].0
  }

  predicate Matches(event: Event, handlers: seq<(string, Handler)>, i: int)
    requires 0 <= i < |handlers|
  {
    event.kind == Str(handlers[i].0)
  }

  /** Running a callback from `withState(state)` yields exactly the callback's own outcome. */
  lemma ThenStart(state: Fields, r: Outcome)
    ensures Then(Start(state), r) == r
  {
    if r.Success? {
      assert [] + r.value.emitted == r.value.emitted;
      assert [] + r.value.queries == r.value.queries;
    }
  }

  /** A chain none of whose types match the event passes the incoming outcome through, a throw included. */
  lemma {:induction false} ChainSkips(o: Outcome, event: Event, handlers: seq<(string, Handler)>)
    requires forall i :: 0 <= i < |handlers| ==> !Matches(event, handlers, i)
    ensures Chain(o, event, handlers) == o
    decreases |handlers|
  {
    if handlers != [] {
      assert !Matches(event, handlers, 0);
      forall i | 0 <= i < |handlers[1..]| ensures !Matches(event, handlers[1..], i) {
        assert !Matches(event, handlers, i + 1);
      }
      ChainSkips(o, event, handlers[1..]);
    }
  }

  /**
    First match wins and at most one handler runs: with distinct types, a chain
    started from `withState(state)` produces the outcome of the one handler whose
    type is the event's, or the untouched state with no effects when none is.
   */
  lemma {:induction false} ChainDispatch(state: Fields, event: Event, handlers: seq<(string, Handler)>)
    requires DistinctTypes(handlers)
    ensures forall i :: 0 <= i < |handlers| && Matches(event, handlers, i) ==>
              Chain(Success(Start(state)), event, handlers) == handlers[i].1(state, event)
    ensures (forall i :: 0 <= i < |handlers| ==> !Matches(event, handlers, i)) ==>
              Chain(Success(Start(state)), event, handlers) == Success(Start(state))
    decreases |handlers|
  {
    if handlers != [] {
      var rest := handlers[1..];
      assert DistinctTypes(rest) by {
        forall i, j | 0 <= i < j < |rest| ensures rest[i].0 != rest[j].0 {
          assert rest[i] == handlers[i + 1] && rest[j] == handlers[j + 1];
        }
      }
      if Matches(event, handlers, 0) {
        var r := handlers[0].1(state, event);
        ThenStart(state, r);
        forall i | 0 <= i < |rest| ensures !Matches(event, rest, i) {
          assert rest[i] == handlers[i + 1];
        }
        ChainSkips(r, event, rest);
        forall i | 0 <= i < |handlers| && Matches(event, handlers, i)
          ensures i == 0
        {
        }
      } else {
        ChainDispatch(state, event, rest);
        forall i | 0 <= i < |handlers| && Matches(event, handlers, i)
          ensures Chain(Success(Start(state)), event, handlers) == handlers[i].1(state, event)
        {
          assert rest[i - 1] == handlers[i];
          assert Matches(event, rest, i - 1);
        }
        if forall i :: 0 <= i < |handlers| ==> !Matches(event, handlers, i) {
          forall i | 0 <= i < |rest| ensures !Matches(event, rest, i) {
            assert rest[i] == handlers[i + 1];
            assert !Matches(event, handlers, i + 1);
          }
        }
      }
    }
  }
}

/** The RPC `getinfo` context (server/src/contexts/app/rpc/getInfo/context.ts). */
module RpcGetInfo {
  import opened Wrappers
  import opened Values
  import opened WithState
  import opened Replay

  const Initialize: string := "INITIALIZE"
  const Updated: string := "UPDATED"
  const GetLatestRpcGetInfo: string := "LATEST_RPC_GET_INFO"

  function InitialState(): Fields {
    map["blocks" := Num(0)]
  }

  /** `withQueryRpcGetinfo`: keep the response as `last` and emit it as UPDATED. */
  function WithQueryRpcGetinfo(state: Fields, event: Event): Outcome {
    var rpcGetInfo := event.payload;
    Success(Emit(Set(Start(state), map["last" := rpcGetInfo]), Event(Str(Updated), rpcGetInfo)))
  }

  /** `withInitialize`: ask for the latest `getinfo`, with no payload. */
  function WithInitialize(state: Fields, event: Event): Outcome {
    Success(Query(Start(state), GetLatestRpcGetInfo, Undefined))
  }

  function Handlers(): seq<(string, Handler)> {
    [(Initialize, WithInitialize), (GetLatestRpcGetInfo, WithQueryRpcGetinfo)]
  }

  function Reducer(state: Fields, event: Event): Outcome {
    Chain(Success(Start(state)), event, Handlers())
  }

  lemma HandlersDistinct()
    ensures DistinctTypes(Handlers())
  {
  }

  /** INITIALIZE, in any state and however often: one LATEST_RPC_GET_INFO query without payload, no state change, no event. */
  lemma {:induction false} InitializeQueriesLatest(state: Fields, payload: Value)
    ensures Reducer(state, Event(Str(Initialize), payload))
            == Success(Acc(state, [], [QueryRequest(GetLatestRpcGetInfo, Undefined)]))
  {
    var e := Event(Str(Initialize), payload);
    HandlersDistinct();
    ChainDispatch(state, e, Handlers());
    assert Matches(e, Handlers(), 0);
    assert [] + [QueryRequest(GetLatestRpcGetInfo, Undefined)] == [QueryRequest(GetLatestRpcGetInfo, Undefined)];
  }

  /** The LATEST_RPC_GET_INFO response becomes `last`, every other field is kept, and exactly one UPDATED event carries it. */
  lemma {:induction false} LatestInfoResponse(state: Fields, info: Value)
    ensures Reducer(state, Event(Str(GetLatestRpcGetInfo), info)).Success?
    ensures var a := Reducer(state, Event(Str(GetLatestRpcGetInfo), info)).value;
            && a.state.Keys == state.Keys + {"last"}
            && a.state["last"] == info
            && (forall k :: k in state && k != "last" ==> a.state[k] == state[k])
            && a.emitted == [Event(Str(Updated), info)]
            && a.queries == []
  {
    var e := Event(Str(GetLatestRpcGetInfo), info);
    HandlersDistinct();
    ChainDispatch(state, e, Handlers());
    assert Matches(e, Handlers(), 1);
    assert [] + [Event(Str(Updated), info)] == [Event(Str(Updated), info)];
  }

  /** Every other event type leaves the state as it is, emitting and querying nothing. */
  lemma {:induction false} OtherEventsIgnored(state: Fields, event: Event)
    requires event.kind != Str(Initialize) && event.kind != Str(GetLatestRpcGetInfo)
    ensures Reducer(state, event) == Success(Acc(state, [], []))
  {
    HandlersDistinct();
    ChainDispatch(state, event, Handlers());
    assert !Matches(event, Handlers(), 0) && !Matches(event, Handlers(), 1);
  }

  /** The reducer never throws, and no accepted invocation changes `blocks`. */
  lemma {:induction false} NeverThrowsKeepsBlocks(state: Fields, event: Event)
    ensures Reducer(state, event).Success?
    ensures Field(Reducer(state, event).value.state, "blocks") == Field(state, "blocks")
  {
    if event.kind == Str(Initialize) {
      InitializeQueriesLatest(state, event.payload);
    } else if event.kind == Str(GetLatestRpcGetInfo) {
      LatestInfoResponse(state, event.payload);
    } else {
      OtherEventsIgnored(state, event);
    }
  }

  /** Over any run from the initial state, `blocks` stays 0. */
  lemma BlocksStayZero(es: seq<Event>)
    ensures Field(Run(Reducer, InitialState(), es), "blocks") == Num(0)
  {
    var inv := (t: Fields) => Field(t, "blocks") == Num(0);
    forall s: Fields, e: Event | inv(s) && Reducer(s, e).Success?
      ensures inv(Reducer(s, e).value.state)
    {
      NeverThrowsKeepsBlocks(s, e);
    }
    RunKeeps(Reducer, inv, InitialState(), es);
  }

  /**
    INITIALIZE followed by the answer to its query: the state is the initial
    `blocks` with the answer as `last`, and the one event emitted is UPDATED
    with the answer as payload.
   */
  lemma InitializeThenAnswer(p: Value, info: Value)
    ensures var es := [Event(Str(Initialize), p), Event(Str(GetLatestRpcGetInfo), info)];
            && Run(Reducer, InitialState(), es) == map["blocks" := Num(0), "last" := info]
            && Emitted(Reducer, InitialState(), es) == [Event(Str(Updated), info)]
  {
    var es := [Event(Str(Initialize), p), Event(Str(GetLatestRpcGetInfo), info)];
    var s0 := InitialState();
    InitializeQueriesLatest(s0, p);
    LatestInfoResponse(s0, info);
    var s2 := Reducer(s0, es[1]).value.state;
    assert s2 == map["blocks" := Num(0), "last" := info];
    assert es[1..] == [es[1]] && es[1..][1..] == [];
    assert Step(Reducer, s0, es[0]) == s0;
    assert Run(Reducer, s0, es[1..]) == Run(Reducer, s2, []);
    assert Emitted(Reducer, s2, []) == [];
  }
}

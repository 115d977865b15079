/**
  The per-user session context (server/src/contexts/app/carverUser/context.ts):
  initialisation, page navigation and relaying between the browser and the
  user's widgets.
 */
module CarverUser {
  import opened Wrappers
  import opened Values
  import opened WithState
  import opened Replay

  // Commands
  const Initialize: string := "INITIALIZE"
  const WidgetsCommand: string := "WIDGETS:COMMAND"
  const WidgetsEmit: string := "WIDGETS:EMIT"
  const PagesNavigate: string := "NAVIGATE"
  const PagesNavigateByPathname: string := "NAVIGATE_BY_PATHNAME"
  // Events
  const Initialized: string := "INITIALIZED"
  const WidgetsEmitted: string := "WIDGETS:EMITTED"
  const PagesNavigated: string := "NAVIGATED"
  // Queries
  const DispatchToWidget: string := "DISPATCH_TO_WIDGET"
  const InitializeWidgets: string := "INITIALIZE_WIDGETS"
  const ReplacePageWidgetContexts: string := "ADD_PAGE_WIDGET_CONTEXTS"
  // Errors
  const IsAlreadyInitialized: string := "You can only initialize state once"

  /** What the reducer takes from outside this file: the page table lookups and the configured coin. */
  datatype Env = Env(getPage: Value -> Value, findPageByPathname: Value -> Value, coin: Value)

  function InitialState(coin: Value): Fields {
    map["id" := Null, "isInitialized" := Bool(false), "isConnected" := Bool(false),
        "widgetContexts" := Arr([]), "coin" := coin]
  }

  /** The payload of the ADD_PAGE_WIDGET_CONTEXTS query a navigation issues. */
  function NavigationRequest(page: Value, pushHistory: Value, idsToRemove: seq<Value>): Value {
    Obj(map["page" := page, "pushHistory" := pushHistory, "widgetContextIdsToRemove" := Arr(idsToRemove)])
  }

  /** `withQueryReplacePageWidgetContexts`: adopt the new page and widgets, announce them, initialise the widgets. */
  function WithQueryReplacePageWidgetContexts(state: Fields, event: Event): Outcome {
    var pushHistory :- Prop(event.payload, "pushHistory");
    var removedIds :- Prop(event.payload, "removedIds");
    var widgetContexts :- Prop(event.payload, "widgetContexts");
    var page :- Prop(event.payload, "page");
    var ids :- Ids(widgetContexts);
    var navigated := Obj(map["page" := page, "widgetContexts" := widgetContexts,
                             "pushHistory" := pushHistory, "removedIds" := removedIds]);
    Success(Query(Set(Emit(Start(state), Event(Str(PagesNavigated), navigated)),
                      map["page" := page, "widgetContexts" := widgetContexts]),
                  InitializeWidgets, Arr(ids)))
  }

  /** `withCommandWidgetsEmit`: re-emit the payload as WIDGETS:EMITTED. */
  function WithCommandWidgetsEmit(state: Fields, event: Event): Outcome {
    Success(Emit(Start(state), Event(Str(WidgetsEmitted), event.payload)))
  }

  /** `withCommandWidgetsCommand`: forward the payload to a widget. */
  function WithCommandWidgetsCommand(state: Fields, event: Event): Outcome {
    Success(Query(Start(state), DispatchToWidget, event.payload))
  }

  /** `withNavigatePage`: ask for the page's widgets in place of the current ones. */
  function WithNavigatePage(env: Env, state: Fields, event: Event): Outcome {
    var page :- Prop(event.payload, "page");
    var pushHistory :- Prop(event.payload, "pushHistory");
    var pageData := env.getPage(page);
    var widgetContextIdsToRemove :- Ids(Field(state, "widgetContexts"));
    Success(Query(Start(state), ReplacePageWidgetContexts, NavigationRequest(pageData, pushHistory, widgetContextIdsToRemove)))
  }

  /** `withCommandPagesNavigate`: navigate by page name, always pushing history. */
  function WithCommandPagesNavigate(env: Env, state: Fields, event: Event): Outcome {
    var page := event.payload;
    ReduceAny(Success(Start(state)), Event(Undefined, Obj(map["page" := page, "pushHistory" := Bool(true)])),
              (s, e) => WithNavigatePage(env, s, e))
  }

  /** `withCommandPagesNavigateByPathname`: navigate by URL path, passing `pushHistory` through. */
  function WithCommandPagesNavigateByPathname(env: Env, state: Fields, event: Event): Outcome {
    var pathname :- Prop(event.payload, "pathname");
    var pushHistory :- Prop(event.payload, "pushHistory");
    var page := env.findPageByPathname(pathname);
    ReduceAny(Success(Start(state)), Event(Undefined, Obj(map["page" := page, "pushHistory" := pushHistory])),
              (s, e) => WithNavigatePage(env, s, e))
  }

  /** `withCommandInitialize`: refuse a second initialisation; otherwise record the id, announce it and navigate without pushing history. */
  function WithCommandInitialize(env: Env, state: Fields, event: Event): Outcome {
    if Truthy(Field(state, "isInitialized")) then
      Failure(Thrown(IsAlreadyInitialized))
    else
      var id :- Prop(event.payload, "id");
      var pathname :- Prop(event.payload, "pathname");
      var page := env.findPageByPathname(pathname);
      var a := Emit(Set(Start(state), map["id" := id, "isInitialized" := Bool(true)]),
                    Event(Str(Initialized), Obj(map["id" := id, "coin" := env.coin])));
      ReduceAny(Success(a), Event(Undefined, Obj(map["page" := page, "pushHistory" := Bool(false)])),
                (s, e) => WithNavigatePage(env, s, e))
  }

  function Handlers(env: Env): seq<(string, Handler)> {
    [ (Initialize, (s, e) => WithCommandInitialize(env, s, e)),
      (WidgetsCommand, WithCommandWidgetsCommand),
      (WidgetsEmit, WithCommandWidgetsEmit),
      (PagesNavigate, (s, e) => WithCommandPagesNavigate(env, s, e)),
      (PagesNavigateByPathname, (s, e) => WithCommandPagesNavigateByPathname(env, s, e)),
      (ReplacePageWidgetContexts, WithQueryReplacePageWidgetContexts) ]
  }

  function Reducer(env: Env, state: Fields, event: Event): Outcome {
    Chain(Success(Start(state)), event, Handlers(env))
  }

  /** The reducer with its environment fixed, as the replay functions take it. */
  function Bound(env: Env): Reducer {
    (s, e) => Reducer(env, s, e)
  }

  lemma HandlersDistinct(env: Env)
    ensures DistinctTypes(Handlers(env))
  {
  }

  /** The handler an event of type `Handlers(env)[i].0` reaches. */
  lemma {:induction false} Dispatch(env: Env, state: Fields, event: Event, i: nat)
    requires i < 6 && event.kind == Str(Handlers(env)[i].0)
    ensures Reducer(env, state, event) == Handlers(env)[i].1(state, event)
  {
    HandlersDistinct(env);
    ChainDispatch(state, event, Handlers(env));
    assert Matches(event, Handlers(env), i);
  }

  /**
    INITIALIZE: throws `isAlreadyInitialized` on an initialised state and a
    TypeError on an undefined or null payload. Otherwise, when the current
    widgets have readable ids, it records `id` and raises `isInitialized`,
    emits exactly one INITIALIZED event `{ id, coin }`, then issues one
    ADD_PAGE_WIDGET_CONTEXTS query for the pathname's page, with `pushHistory`
    false and the ids of the current widgets, in order, to remove.
   */
  lemma {:induction false} InitializeOnce(env: Env, state: Fields, payload: Value)
    ensures Raised(state, "isInitialized") ==>
              Reducer(env, state, Event(Str(Initialize), payload)) == Failure(Thrown(IsAlreadyInitialized))
    ensures !Raised(state, "isInitialized") && Nullish(payload) ==>
              Reducer(env, state, Event(Str(Initialize), payload)) == Failure(TypeError("id"))
    ensures !Raised(state, "isInitialized") && !Nullish(payload) ==>
              (Reducer(env, state, Event(Str(Initialize), payload)).Success? <==> HasReadableIds(Field(state, "widgetContexts")))
    ensures !Raised(state, "isInitialized") && !Nullish(payload) && HasReadableIds(Field(state, "widgetContexts")) ==>
              var id := Get(payload, "id");
              var page := env.getPage(env.findPageByPathname(Get(payload, "pathname")));
              Reducer(env, state, Event(Str(Initialize), payload))
              == Success(Acc(state["id" := id]["isInitialized" := Bool(true)],
                             [Event(Str(Initialized), Obj(map["id" := id, "coin" := env.coin]))],
                             [QueryRequest(ReplacePageWidgetContexts,
                                           NavigationRequest(page, Bool(false), IdsOf(Field(state, "widgetContexts").items)))]))
  {
    var e := Event(Str(Initialize), payload);
    Dispatch(env, state, e, 0);
    if !Raised(state, "isInitialized") && !Nullish(payload) {
      InitializeAccepted(env, state, payload);
    }
  }

  /** The INITIALIZE handler on an uninitialised state and an object payload. */
  lemma InitializeAccepted(env: Env, state: Fields, payload: Value)
    requires !Raised(state, "isInitialized") && !Nullish(payload)
    ensures WithCommandInitialize(env, state, Event(Str(Initialize), payload)).Success?
            <==> HasReadableIds(Field(state, "widgetContexts"))
    ensures HasReadableIds(Field(state, "widgetContexts")) ==>
              var id := Get(payload, "id");
              var page := env.getPage(env.findPageByPathname(Get(payload, "pathname")));
              WithCommandInitialize(env, state, Event(Str(Initialize), payload))
              == Success(Acc(state["id" := id]["isInitialized" := Bool(true)],
                             [Event(Str(Initialized), Obj(map["id" := id, "coin" := env.coin]))],
                             [QueryRequest(ReplacePageWidgetContexts,
                                           NavigationRequest(page, Bool(false), IdsOf(Field(state, "widgetContexts").items)))]))
  {
    var id := Get(payload, "id");
    var page := env.findPageByPathname(Get(payload, "pathname"));
    var ev := Event(Str(Initialized), Obj(map["id" := id, "coin" := env.coin]));
    var merged := state + map["id" := id, "isInitialized" := Bool(true)];
    var a := Emit(Set(Start(state), map["id" := id, "isInitialized" := Bool(true)]), ev);
    assert a == Acc(merged, [ev], []);
    assert merged == state["id" := id]["isInitialized" := Bool(true)];
    assert Field(merged, "widgetContexts") == Field(state, "widgetContexts");
    var nav := Event(Undefined, Obj(map["page" := page, "pushHistory" := Bool(false)]));
    var callback: Handler := (s, e) => WithNavigatePage(env, s, e);
    assert WithCommandInitialize(env, state, Event(Str(Initialize), payload)) == ReduceAny(Success(a), nav, callback);
    assert ReduceAny(Success(a), nav, callback) == Then(a, WithNavigatePage(env, merged, nav));
    if HasReadableIds(Field(state, "widgetContexts")) {
      var q := QueryRequest(ReplacePageWidgetContexts,
                            NavigationRequest(env.getPage(page), Bool(false), IdsOf(Field(state, "widgetContexts").items)));
      assert Prop(nav.payload, "page") == Success(page);
      assert Prop(nav.payload, "pushHistory") == Success(Bool(false));
      assert Ids(Field(merged, "widgetContexts")) == Success(IdsOf(Field(state, "widgetContexts").items));
      assert [] + [q] == [q];
      assert WithNavigatePage(env, merged, nav) == Success(Acc(merged, [], [q]));
      assert [ev] + [] == [ev];
      assert [] + [q] == [q];
    }
  }

  /**
    NAVIGATE: one ADD_PAGE_WIDGET_CONTEXTS query for the named page, always with
    `pushHistory` true, removing the current widgets by id in order; no state
    change and no event. It throws exactly when the current widgets have no
    readable ids.
   */
  lemma {:induction false} Navigate(env: Env, state: Fields, page: Value)
    ensures Reducer(env, state, Event(Str(PagesNavigate), page)).Success? <==> HasReadableIds(Field(state, "widgetContexts"))
    ensures HasReadableIds(Field(state, "widgetContexts")) ==>
              Reducer(env, state, Event(Str(PagesNavigate), page))
              == Success(Acc(state, [], [QueryRequest(ReplacePageWidgetContexts,
                                                      NavigationRequest(env.getPage(page), Bool(true),
                                                                        IdsOf(Field(state, "widgetContexts").items)))]))
  {
    var e := Event(Str(PagesNavigate), page);
    Dispatch(env, state, e, 3);
    if HasReadableIds(Field(state, "widgetContexts")) {
      var q := QueryRequest(ReplacePageWidgetContexts,
                            NavigationRequest(env.getPage(page), Bool(true), IdsOf(Field(state, "widgetContexts").items)));
      var nav := Event(Undefined, Obj(map["page" := page, "pushHistory" := Bool(true)]));
      assert [] + [q] == [q];
      assert WithNavigatePage(env, state, nav) == Success(Acc(state, [], [q]));
      ThenStart(state, WithNavigatePage(env, state, nav));
    }
  }

  /**
    NAVIGATE_BY_PATHNAME: a TypeError on an undefined or null payload; otherwise
    the same query as NAVIGATE for the pathname's page, with the payload's
    `pushHistory` passed through unchanged.
   */
  lemma {:induction false} NavigateByPathname(env: Env, state: Fields, payload: Value)
    ensures Nullish(payload) ==>
              Reducer(env, state, Event(Str(PagesNavigateByPathname), payload)) == Failure(TypeError("pathname"))
    ensures !Nullish(payload) ==>
              (Reducer(env, state, Event(Str(PagesNavigateByPathname), payload)).Success?
               <==> HasReadableIds(Field(state, "widgetContexts")))
    ensures !Nullish(payload) && HasReadableIds(Field(state, "widgetContexts")) ==>
              Reducer(env, state, Event(Str(PagesNavigateByPathname), payload))
              == Success(Acc(state, [], [QueryRequest(ReplacePageWidgetContexts,
                                                      NavigationRequest(env.getPage(env.findPageByPathname(Get(payload, "pathname"))),
                                                                        Get(payload, "pushHistory"),
                                                                        IdsOf(Field(state, "widgetContexts").items)))]))
  {
    var e := Event(Str(PagesNavigateByPathname), payload);
    Dispatch(env, state, e, 4);
    if !Nullish(payload) && HasReadableIds(Field(state, "widgetContexts")) {
      var q := QueryRequest(ReplacePageWidgetContexts,
                            NavigationRequest(env.getPage(env.findPageByPathname(Get(payload, "pathname"))),
                                              Get(payload, "pushHistory"), IdsOf(Field(state, "widgetContexts").items)));
      var nav := Event(Undefined, Obj(map["page" := env.findPageByPathname(Get(payload, "pathname")),
                                          "pushHistory" := Get(payload, "pushHistory")]));
      assert [] + [q] == [q];
      assert WithNavigatePage(env, state, nav) == Success(Acc(state, [], [q]));
      ThenStart(state, WithNavigatePage(env, state, nav));
    }
  }

  /**
    The ADD_PAGE_WIDGET_CONTEXTS response: a TypeError on an undefined or null
    payload or when its `widgetContexts` have no readable ids. Otherwise `page`
    and `widgetContexts` are set and every other field kept, one NAVIGATED event
    carries `{ page, widgetContexts, pushHistory, removedIds }`, and one
    INITIALIZE_WIDGETS query carries the new widgets' ids in order.
   */
  lemma {:induction false} PageWidgetContextsReplaced(env: Env, state: Fields, payload: Value)
    ensures Nullish(payload) ==>
              Reducer(env, state, Event(Str(ReplacePageWidgetContexts), payload)) == Failure(TypeError("pushHistory"))
    ensures !Nullish(payload) ==>
              (Reducer(env, state, Event(Str(ReplacePageWidgetContexts), payload)).Success?
               <==> HasReadableIds(Get(payload, "widgetContexts")))
    ensures !Nullish(payload) && HasReadableIds(Get(payload, "widgetContexts")) ==>
              var page := Get(payload, "page");
              var widgets := Get(payload, "widgetContexts");
              Reducer(env, state, Event(Str(ReplacePageWidgetContexts), payload))
              == Success(Acc(state["page" := page]["widgetContexts" := widgets],
                             [Event(Str(PagesNavigated),
                                    Obj(map["page" := page, "widgetContexts" := widgets,
                                            "pushHistory" := Get(payload, "pushHistory"),
                                            "removedIds" := Get(payload, "removedIds")]))],
                             [QueryRequest(InitializeWidgets, Arr(IdsOf(widgets.items)))]))
  {
    var e := Event(Str(ReplacePageWidgetContexts), payload);
    Dispatch(env, state, e, 5);
    if !Nullish(payload) && HasReadableIds(Get(payload, "widgetContexts")) {
      var page := Get(payload, "page");
      var widgets := Get(payload, "widgetContexts");
      assert state + map["page" := page, "widgetContexts" := widgets] == state["page" := page]["widgetContexts" := widgets];
      var q := QueryRequest(InitializeWidgets, Arr(IdsOf(widgets.items)));
      var ev := Event(Str(PagesNavigated),
                      Obj(map["page" := page, "widgetContexts" := widgets,
                              "pushHistory" := Get(payload, "pushHistory"), "removedIds" := Get(payload, "removedIds")]));
      assert Ids(widgets) == Success(IdsOf(widgets.items));
      assert [] + [ev] == [ev];
      assert [] + [q] == [q];
    }
  }

  /** WIDGETS:EMIT re-emits its payload unchanged as WIDGETS:EMITTED; no state change, no query. */
  lemma {:induction false} WidgetsEmitRelayed(env: Env, state: Fields, payload: Value)
    ensures Reducer(env, state, Event(Str(WidgetsEmit), payload))
            == Success(Acc(state, [Event(Str(WidgetsEmitted), payload)], []))
  {
    Dispatch(env, state, Event(Str(WidgetsEmit), payload), 2);
    assert [] + [Event(Str(WidgetsEmitted), payload)] == [Event(Str(WidgetsEmitted), payload)];
  }

  /** WIDGETS:COMMAND issues exactly one DISPATCH_TO_WIDGET query carrying the payload; no state change, no event. */
  lemma {:induction false} WidgetsCommandDispatched(env: Env, state: Fields, payload: Value)
    ensures Reducer(env, state, Event(Str(WidgetsCommand), payload))
            == Success(Acc(state, [], [QueryRequest(DispatchToWidget, payload)]))
  {
    Dispatch(env, state, Event(Str(WidgetsCommand), payload), 1);
    assert [] + [QueryRequest(DispatchToWidget, payload)] == [QueryRequest(DispatchToWidget, payload)];
  }

  /** Every event type outside the chain leaves the state as it is, emitting and querying nothing. */
  lemma {:induction false} OtherEventsIgnored(env: Env, state: Fields, event: Event)
    requires forall i :: 0 <= i < 6 ==> event.kind != Str(Handlers(env)[i].0)
    ensures Reducer(env, state, event) == Success(Acc(state, [], []))
  {
    HandlersDistinct(env);
    ChainDispatch(state, event, Handlers(env));
  }

  /**
    What every reachable state satisfies: the widgets have readable ids, the
    connection flag is down (nothing live sets it) and the coin is the
    configured one.
   */
  predicate Consistent(coin: Value, s: Fields) {
    && HasReadableIds(Field(s, "widgetContexts"))
    && Field(s, "isConnected") == Bool(false)
    && Field(s, "coin") == coin
  }

  /** Every accepted invocation keeps `Consistent` and never lowers `isInitialized`. */
  lemma {:induction false} StepKeepsConsistent(env: Env, s: Fields, e: Event)
    requires Reducer(env, s, e).Success?
    ensures Consistent(env.coin, s) ==> Consistent(env.coin, Reducer(env, s, e).value.state)
    ensures Raised(s, "isInitialized") ==> Raised(Reducer(env, s, e).value.state, "isInitialized")
    ensures e.kind == Str(Initialize) ==>
              !Raised(s, "isInitialized") && Raised(Reducer(env, s, e).value.state, "isInitialized")
  {
    if e.kind == Str(Initialize) {
      InitializeOnce(env, s, e.payload);
    } else if e.kind == Str(WidgetsCommand) {
      WidgetsCommandDispatched(env, s, e.payload);
    } else if e.kind == Str(WidgetsEmit) {
      WidgetsEmitRelayed(env, s, e.payload);
    } else if e.kind == Str(PagesNavigate) {
      Navigate(env, s, e.payload);
    } else if e.kind == Str(PagesNavigateByPathname) {
      NavigateByPathname(env, s, e.payload);
    } else if e.kind == Str(ReplacePageWidgetContexts) {
      PageWidgetContextsReplaced(env, s, e.payload);
    } else {
      OtherEventsIgnored(env, s, e);
    }
  }

  /** From the initial state, every run reaches a consistent state, so navigation there never throws. */
  lemma RunStaysConsistent(env: Env, es: seq<Event>, page: Value)
    ensures Consistent(env.coin, Run(Bound(env), InitialState(env.coin), es))
    ensures Reducer(env, Run(Bound(env), InitialState(env.coin), es), Event(Str(PagesNavigate), page)).Success?
  {
    var inv := (t: Fields) => Consistent(env.coin, t);
    forall s: Fields, e: Event | inv(s) && Bound(env)(s, e).Success?
      ensures inv(Bound(env)(s, e).value.state)
    {
      StepKeepsConsistent(env, s, e);
    }
    assert inv(InitialState(env.coin));
    RunKeeps(Bound(env), inv, InitialState(env.coin), es);
    Navigate(env, Run(Bound(env), InitialState(env.coin), es), page);
  }

  /** Over any run, from any state, at most one INITIALIZE is accepted, and none once initialised. */
  lemma InitializedAtMostOnce(env: Env, s: Fields, es: seq<Event>)
    ensures Accepted(Bound(env), s, es, Initialize) <= 1
    ensures Raised(s, "isInitialized") ==> Accepted(Bound(env), s, es, Initialize) == 0
  {
    forall t: Fields, e: Event
      ensures e.kind == Str(Initialize) && Bound(env)(t, e).Success? ==>
                !Raised(t, "isInitialized") && Raised(Bound(env)(t, e).value.state, "isInitialized")
      ensures Raised(t, "isInitialized") && Bound(env)(t, e).Success? ==> Raised(Bound(env)(t, e).value.state, "isInitialized")
    {
      if Bound(env)(t, e).Success? {
        StepKeepsConsistent(env, t, e);
      }
    }
    AcceptedAtMostOnce(Bound(env), s, es, Initialize, "isInitialized");
  }
}

/**
 * The middleware installer. Every middleware is given one API object holding
 * the store's `getState` and its dispatch as it was before installation; the
 * resulting chain is composed onto that dispatch, and the composite overwrites
 * the store's `dispatch` property. The leftmost middleware ends up outermost.
 */
module ApplyMiddleware {
  import opened Compose
  import opened CreateStore

  /** The `middlewareAPI` object: `{ getState, dispatch }`. */
  datatype API<!S> = API(getState: StoreVal<S> -> S, dispatch: DispatchFn<S>)

  /** `api => next => action => result`, with a dispatch as a transformer of the store. */
  type Middleware<!S> = API<S> -> DispatchFn<S> -> DispatchFn<S>

  /** The base store's `getState`, on the store's value. */
  function GetStateOf<S>(v: StoreVal<S>): S
  {
    v.state
  }

  /** `middlewares.map(middleware => middleware(middlewareAPI))`: every one gets the same `api`. */
  function Chain<S>(middlewares: seq<Middleware<S>>, api: API<S>): (chain: seq<DispatchFn<S> -> DispatchFn<S>>)
    ensures |chain| == |middlewares|
    ensures forall i :: 0 <= i < |middlewares| ==> chain[i] == middlewares[i](api)
    decreases |middlewares|
  {
    if middlewares == [] then [] else [middlewares[0](api)] + Chain(middlewares[1..], api)
  }

  /** `compose(...middlewareChain)(dispatch)`. */
  function Enhance<S>(middlewares: seq<Middleware<S>>, api: API<S>, dispatch: DispatchFn<S>): DispatchFn<S>
  {
    Compose.Compose(Chain(middlewares, api))(dispatch)
  }

  /** Reference meaning: `m1(api)(m2(api)(... mn(api)(dispatch)))`. */
  function Wrap<S>(middlewares: seq<Middleware<S>>, api: API<S>, dispatch: DispatchFn<S>): DispatchFn<S>
    decreases |middlewares|
  {
    if middlewares == [] then dispatch
    else middlewares[0](api)(Wrap(middlewares[1..], api, dispatch))
  }

  lemma {:induction false} NestedChainIsWrap<S>(middlewares: seq<Middleware<S>>, api: API<S>, dispatch: DispatchFn<S>)
    ensures Nested(Chain(middlewares, api), dispatch) == Wrap(middlewares, api, dispatch)
    decreases |middlewares|
  {
    if middlewares != [] {
      assert Chain(middlewares, api)[1..] == Chain(middlewares[1..], api);
      NestedChainIsWrap(middlewares[1..], api, dispatch);
    }
  }

  /** The composed chain is the nested application of the middlewares, leftmost outermost. */
  lemma EnhanceIsWrap<S>(middlewares: seq<Middleware<S>>, api: API<S>, dispatch: DispatchFn<S>)
    ensures Enhance(middlewares, api, dispatch) == Wrap(middlewares, api, dispatch)
  {
    ComposeIsNested(Chain(middlewares, api), dispatch);
    NestedChainIsWrap(middlewares, api, dispatch);
  }

  /** With no middlewares the store keeps the dispatch it had. */
  lemma EnhanceEmpty<S>(api: API<S>, dispatch: DispatchFn<S>)
    ensures Enhance([], api, dispatch) == dispatch
  {
    ComposeEmpty(dispatch);
  }

  /**
   * The first middleware sees every action first and receives, as `next`, the
   * dispatch the other middlewares make of the original one.
   */
  lemma EnhanceOutermostFirst<S>(middlewares: seq<Middleware<S>>, api: API<S>, dispatch: DispatchFn<S>)
    requires middlewares != []
    ensures Enhance(middlewares, api, dispatch) == middlewares[0](api)(Enhance(middlewares[1..], api, dispatch))
  {
    EnhanceIsWrap(middlewares, api, dispatch);
    EnhanceIsWrap(middlewares[1..], api, dispatch);
  }

  lemma {:induction false} WrapPassingOn<S>(middlewares: seq<Middleware<S>>, api: API<S>, dispatch: DispatchFn<S>,
                                          a: Action, v: StoreVal<S>, j: nat)
    requires j <= |middlewares|
    requires forall i, next: DispatchFn<S>, w: StoreVal<S> :: 0 <= i < |middlewares| ==>
      middlewares[i](api)(next)(w, a) == next(w, a)
    ensures Wrap(middlewares[j..], api, dispatch)(v, a) == dispatch(v, a)
    decreases |middlewares| - j
  {
    if j < |middlewares| {
      assert middlewares[j..][1..] == middlewares[j + 1..];
      WrapPassingOn(middlewares, api, dispatch, a, v, j + 1);
    }
  }

  /** Middlewares that all hand `a` on unchanged leave its dispatch to the original one. */
  lemma PassingOnReachesDispatch<S>(middlewares: seq<Middleware<S>>, api: API<S>,
                                    dispatch: DispatchFn<S>, a: Action, v: StoreVal<S>)
    requires forall i, next: DispatchFn<S>, w: StoreVal<S> :: 0 <= i < |middlewares| ==>
      middlewares[i](api)(next)(w, a) == next(w, a)
    ensures Enhance(middlewares, api, dispatch)(v, a) == dispatch(v, a)
  {
    EnhanceIsWrap(middlewares, api, dispatch);
    WrapPassingOn(middlewares, api, dispatch, a, v, 0);
    assert middlewares[0..] == middlewares;
  }

  lemma {:induction false} WrapStopped<S>(middlewares: seq<Middleware<S>>, api: API<S>, dispatch: DispatchFn<S>,
                                        k: nat, a: Action, v: StoreVal<S>,
                                        answer: StoreVal<S> -> (StoreVal<S>, Result<Action>), j: nat)
    requires j <= k < |middlewares|
    requires forall i, next: DispatchFn<S>, w: StoreVal<S> :: 0 <= i < k ==>
      middlewares[i](api)(next)(w, a) == next(w, a)
    requires forall next: DispatchFn<S>, w: StoreVal<S> :: middlewares[k](api)(next)(w, a) == answer(w)
    ensures Wrap(middlewares[j..], api, dispatch)(v, a) == answer(v)
    decreases k - j
  {
    assert middlewares[j..][1..] == middlewares[j + 1..];
    if j < k {
      WrapStopped(middlewares, api, dispatch, k, a, v, answer, j + 1);
    }
  }

  /**
   * A middleware that answers `a` itself without calling `next` never passes
   * `a` along the chain: the composite's result is its answer on the store as
   * the middlewares before it passed it on, whatever the middlewares after it
   * and the dispatch they wrap are. The answer itself may still call
   * `api.dispatch`, which is the store's dispatch from before the overwrite.
   */
  lemma StoppedActionNeverArrives<S>(middlewares: seq<Middleware<S>>, api: API<S>,
                                     dispatch: DispatchFn<S>, k: nat, a: Action, v: StoreVal<S>,
                                     answer: StoreVal<S> -> (StoreVal<S>, Result<Action>))
    requires k < |middlewares|
    requires forall i, next: DispatchFn<S>, w: StoreVal<S> :: 0 <= i < k ==>
      middlewares[i](api)(next)(w, a) == next(w, a)
    requires forall next: DispatchFn<S>, w: StoreVal<S> :: middlewares[k](api)(next)(w, a) == answer(w)
    ensures Enhance(middlewares, api, dispatch)(v, a) == answer(v)
  {
    EnhanceIsWrap(middlewares, api, dispatch);
    WrapStopped(middlewares, api, dispatch, k, a, v, answer, 0);
    assert middlewares[0..] == middlewares;
  }

  /** The special case of a stopping middleware that answers with a value and leaves the store alone. */
  lemma StoppedLeavesStore<S>(middlewares: seq<Middleware<S>>, api: API<S>,
                              dispatch: DispatchFn<S>, k: nat, a: Action,
                              v: StoreVal<S>, out: Result<Action>)
    requires k < |middlewares|
    requires forall i, next: DispatchFn<S>, w: StoreVal<S> :: 0 <= i < k ==>
      middlewares[i](api)(next)(w, a) == next(w, a)
    requires forall next: DispatchFn<S>, w: StoreVal<S> :: middlewares[k](api)(next)(w, a) == (w, out)
    ensures Enhance(middlewares, api, dispatch)(v, a) == (v, out)
  {
    StoppedActionNeverArrives(middlewares, api, dispatch, k, a, v, (w: StoreVal<S>) => (w, out));
  }

  /**
   * A middleware in the shape of the thunk example: the actions `handles`
   * picks are not passed on but run against the middleware API, as the thunk
   * calls `action(dispatch, getState)`; all others go to `next`.
   */
  function Intercepting<S>(handles: Action -> bool,
                           run: (API<S>, StoreVal<S>, Action) -> (StoreVal<S>, Result<Action>)): Middleware<S>
  {
    (api: API<S>) => (next: DispatchFn<S>) => (w: StoreVal<S>, a: Action) =>
      if handles(a) then run(api, w, a) else next(w, a)
  }

  /**
   * Put in front of other middlewares, it answers the actions it picks itself,
   * by running them against the API, and is transparent for the others.
   */
  lemma InterceptingStops<S>(handles: Action -> bool, run: (API<S>, StoreVal<S>, Action) -> (StoreVal<S>, Result<Action>),
                             others: seq<Middleware<S>>, api: API<S>, dispatch: DispatchFn<S>, a: Action, v: StoreVal<S>)
    ensures handles(a) ==> Enhance([Intercepting(handles, run)] + others, api, dispatch)(v, a) == run(api, v, a)
    ensures !handles(a) ==>
      Enhance([Intercepting(handles, run)] + others, api, dispatch)(v, a) == Enhance(others, api, dispatch)(v, a)
  {
    var all := [Intercepting(handles, run)] + others;
    assert all[1..] == others;
    EnhanceOutermostFirst(all, api, dispatch);
  }

  /** Logging `tags[j]` and then notifying the tags after it is notifying the tags from `j` on. */
  lemma RecordStep<S>(v: StoreVal<S>, tags: seq<ListenerId>, j: nat)
    requires j < |tags|
    ensures var w := v.(log := v.log + [Notice(tags[j], v.state)]);
      w.(log := w.log + Notify(tags[j + 1..], w.state)) == v.(log := v.log + Notify(tags[j..], v.state))
  {
    assert tags[j..][1..] == tags[j + 1..];
    NotifyFirst(tags[j..], v.state);
  }

  lemma {:induction false} WrapRecording<S>(middlewares: seq<Middleware<S>>, tags: seq<ListenerId>, api: API<S>,
                                          dispatch: DispatchFn<S>, a: Action, v: StoreVal<S>, j: nat)
    requires j <= |tags| == |middlewares|
    requires forall i, next: DispatchFn<S>, w: StoreVal<S> :: 0 <= i < |middlewares| ==>
      middlewares[i](api)(next)(w, a) == next(w.(log := w.log + [Notice(tags[i], w.state)]), a)
    ensures Wrap(middlewares[j..], api, dispatch)(v, a) == dispatch(v.(log := v.log + Notify(tags[j..], v.state)), a)
    decreases |middlewares| - j
  {
    if j < |middlewares| {
      assert middlewares[j..][1..] == middlewares[j + 1..];
      var inner := Wrap(middlewares[j + 1..], api, dispatch);
      var w := v.(log := v.log + [Notice(tags[j], v.state)]);
      assert Wrap(middlewares[j..], api, dispatch) == middlewares[j](api)(inner);
      assert middlewares[j](api)(inner)(v, a) == inner(w, a);
      WrapRecording(middlewares, tags, api, dispatch, a, w, j + 1);
      RecordStep(v, tags, j);
    } else {
      assert v.(log := v.log + Notify(tags[j..], v.state)) == v;
    }
  }

  /**
   * Ordering: when the i-th middleware logs `tags[i]` and hands the action on,
   * the original dispatch receives the store with the tags logged first to last.
   */
  lemma RecordingOrder<S>(middlewares: seq<Middleware<S>>, tags: seq<ListenerId>, api: API<S>,
                          dispatch: DispatchFn<S>, a: Action, v: StoreVal<S>)
    requires |tags| == |middlewares|
    requires forall i, next: DispatchFn<S>, w: StoreVal<S> :: 0 <= i < |middlewares| ==>
      middlewares[i](api)(next)(w, a) == next(w.(log := w.log + [Notice(tags[i], w.state)]), a)
    ensures Enhance(middlewares, api, dispatch)(v, a) == dispatch(v.(log := v.log + Notify(tags, v.state)), a)
  {
    EnhanceIsWrap(middlewares, api, dispatch);
    WrapRecording(middlewares, tags, api, dispatch, a, v, 0);
    assert middlewares[0..] == middlewares && tags[0..] == tags;
  }

  /**
   * End to end with the base dispatch: the tags come before the listener
   * calls, which see the state the reducer made.
   */
  lemma RecordingBeforeListeners<S>(middlewares: seq<Middleware<S>>, tags: seq<ListenerId>, api: API<S>,
                                    a: Action, v: StoreVal<S>)
    requires |tags| == |middlewares|
    requires forall i, next: DispatchFn<S>, w: StoreVal<S> :: 0 <= i < |middlewares| ==>
      middlewares[i](api)(next)(w, a) == next(w.(log := w.log + [Notice(tags[i], w.state)]), a)
    requires a.Object? && a.ownType && a.typeProp.Defined?
    ensures Enhance(middlewares, api, DispatchStep)(v, a).1 == Ok(a)
    ensures Enhance(middlewares, api, DispatchStep)(v, a).0.state == v.reducer(v.state, a)
    ensures Enhance(middlewares, api, DispatchStep)(v, a).0.log ==
      v.log + Notify(tags, v.state) + Notify(v.listeners, v.reducer(v.state, a))
  {
    RecordingOrder(middlewares, tags, api, DispatchStep, a, v);
  }

  /**
   * The installer `applyMiddleware(...middlewares)(createStore)` runs on the
   * store that `createStore(reducer, preloadedState, enhancer)` returned: the
   * API holds that store's `getState` and its dispatch before the overwrite,
   * and only the `dispatch` property changes.
   */
  method ApplyMiddleware<S>(middlewares: seq<Middleware<S>>, store: Store<S>) returns (api: API<S>)
    modifies store`dispatch
    ensures api.dispatch == old(store.dispatch)
    ensures forall v :: api.getState(v) == v.state
    ensures store.dispatch == Enhance(middlewares, api, old(store.dispatch))
  {
    api := API(GetStateOf, store.dispatch);
    var chain := Chain(middlewares, api);
    store.dispatch := Compose.Compose(chain)(store.dispatch);
  }

  /**
   * `applyMiddleware(...middlewares)(createStore)(reducer, preloadedState)`
   * with the base `createStore` and no enhancer: the store is built from
   * exactly those arguments, and its new dispatch wraps the base dispatch,
   * which is also the dispatch every middleware finds in its API.
   */
  method CreateWithMiddleware<S>(middlewares: seq<Middleware<S>>, reducer: Arg<Reducer<S>>, preloadedState: S)
    returns (r: Result<Store<S>>, ghost api: API<S>)
    ensures !reducer.Function? ==> r == Err(TypeError(ReducerNotFunction))
    ensures reducer.Function? ==>
      && r.Ok? && fresh(r.value)
      && r.value.Value() == StoreVal(reducer.fn(preloadedState, InitAction), reducer.fn, [], [])
      && api.dispatch == DispatchStep
      && (forall v :: api.getState(v) == v.state)
      && r.value.dispatch == Enhance(middlewares, api, DispatchStep)
  {
    api := API(GetStateOf, DispatchStep);
    ghost var base;
    r, base := CreateStore.CreateStore(reducer, Plain(preloadedState), Falsy);
    if r.Ok? {
      api := ApplyMiddleware(middlewares, r.value);
    }
  }
}

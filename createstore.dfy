/**
 * The store: a mutable cell of state that changes only by applying the reducer
 * to a dispatched action, with listeners notified after every accepted change.
 *
 * The closure variables `state`, `reducer` and `listeners` of `createStore`
 * become fields of the class `Store`; the store object's `dispatch` property,
 * which an enhancer may overwrite, is a field holding a dispatch function.
 * Listeners are opaque ids; calling one is recorded in a notification log
 * together with the state it would read through `getState` at that moment.
 */
module CreateStore {

  datatype Option<T> = None | Some(value: T)

  /** What a JavaScript `throw` raises: a `TypeError` or a plain `Error`. */
  datatype Thrown = TypeError(message: string) | Error(message: string)

  /** The outcome of a call: its return value, or what it threw. */
  datatype Result<T> = Ok(value: T) | Err(error: Thrown)

  /**
   * A JavaScript value passed where the store expects a function: a function,
   * or a non-function value that is falsy (`undefined`, `null`, `0`, `''`,
   * `false`) or truthy.
   */
  datatype Arg<F> = Function(fn: F) | Falsy | Truthy

  /** What reading the `type` property of an object yields. */
  datatype TypeProp = Undefined | Defined(tag: string)

  /**
   * A value passed to `dispatch`. `NonObject` is anything whose `typeof` is
   * not `'object'`; `Null` is `null`, whose `typeof` is `'object'`; an
   * `Object` records whether `type` is one of its own properties and what
   * `action.type` reads (own or inherited).
   */
  datatype Action =
    | NonObject
    | Null
    | Object(ownType: bool, typeProp: TypeProp)

  /** The action the reducer is first called with: `{ type: '@@init' }`. */
  const InitAction: Action := Object(true, Defined("@@init"))

  const ReducerNotFunction := "Reducer must be a function."
  const ActionNotObject := "Dispatches must receive objects."
  const ActionWithoutType := "Actions must include types."
  const ListenerNotFunction := "Listener must be a function."
  const EnhancerNotFunction := "Enhancer must be a function."
  /** What the engine throws for `null.hasOwnProperty('type')`. */
  const PropertyOfNull := "Cannot read properties of null (reading 'hasOwnProperty')"

  type Reducer<!S> = (S, Action) -> S

  type ListenerId = nat

  /** One listener call and the state that listener reads through `getState`. */
  datatype Notice<S> = Notice(listener: ListenerId, observed: S)

  /** The closure variables of one store, and the log of listener calls so far. */
  datatype StoreVal<!S> = StoreVal(
    state: S,
    reducer: Reducer<S>,
    listeners: seq<ListenerId>,
    log: seq<Notice<S>>)

  /** A dispatch function, as a transformer of the store's value. */
  type DispatchFn<!S> = (StoreVal<S>, Action) -> (StoreVal<S>, Result<Action>)

  /** An enhancer, applied to the base store once it is built. */
  type Enhancer<!S> = Store<S> -> Store<S>

  /**
   * The value passed as `preloadedState`: a plain value, or a function, which
   * is at once the state handed to the reducer and the enhancer to apply.
   */
  datatype Preloaded<!S> = Plain(value: S) | Callable(value: S, asEnhancer: Enhancer<S>)

  /** The checks `dispatch` makes before calling the reducer, in their order. */
  function ActionError(a: Action): (e: Option<Thrown>)
    ensures e.None? <==> a.Object? && a.ownType && a.typeProp.Defined?
    ensures a.NonObject? ==> e == Some(TypeError(ActionNotObject))
    ensures a.Null? ==> e.Some? && e.value.TypeError?
    ensures a.Object? && e.Some? ==> e == Some(Error(ActionWithoutType))
  {
    match a
    case NonObject => Some(TypeError(ActionNotObject))
    case Null => Some(TypeError(PropertyOfNull))
    case Object(own, t) => if !own || t.Undefined? then Some(Error(ActionWithoutType)) else None
  }

  /** The calls one notification pass makes: every listener, in order, seeing `s`. */
  function Notify<S>(listeners: seq<ListenerId>, s: S): seq<Notice<S>>
  {
    seq(|listeners|, i requires 0 <= i < |listeners| => Notice(listeners[i], s))
  }

  lemma NotifyFirst<S>(listeners: seq<ListenerId>, s: S)
    requires listeners != []
    ensures Notify(listeners, s) == [Notice(listeners[0], s)] + Notify(listeners[1..], s)
  {
    assert Notify(listeners, s)[1..] == Notify(listeners[1..], s);
  }

  /** The listeners a log records, in the order they were called. */
  function CalledIds<S>(log: seq<Notice<S>>): seq<ListenerId>
  {
    if log == [] then [] else [log[0].listener] + CalledIds(log[1..])
  }

  /**
   * One pass calls exactly the registered listeners, in registration order and
   * one call per registration, and every call observes the same state.
   */
  lemma {:induction false} NotifyCallsEachOnce<S>(listeners: seq<ListenerId>, s: S)
    ensures CalledIds(Notify(listeners, s)) == listeners
    ensures multiset(CalledIds(Notify(listeners, s))) == multiset(listeners)
    ensures forall n :: n in Notify(listeners, s) ==> n.observed == s
  {
    if listeners != [] {
      NotifyFirst(listeners, s);
      NotifyCallsEachOnce(listeners[1..], s);
      assert Notify(listeners, s)[1..] == Notify(listeners[1..], s);
      assert listeners == [listeners[0]] + listeners[1..];
    }
  }

  /** Notifying two runs of listeners one after the other is one pass over both. */
  lemma NotifyAppend<S>(a: seq<ListenerId>, b: seq<ListenerId>, s: S)
    ensures Notify(a + b, s) == Notify(a, s) + Notify(b, s)
  {
  }

  /** The dispatch closure `createStore` builds, as a transformer of the store's value. */
  function DispatchStep<S>(v: StoreVal<S>, a: Action): (StoreVal<S>, Result<Action>)
  {
    match ActionError(a)
    case Some(e) => (v, Err(e))
    case None =>
      var next := v.reducer(v.state, a);
      (v.(state := next, log := v.log + Notify(v.listeners, next)), Ok(a))
  }

  /** A rejected action throws and leaves the whole store as it was. */
  lemma DispatchRejects<S>(v: StoreVal<S>, a: Action)
    requires !(a.Object? && a.ownType && a.typeProp.Defined?)
    ensures DispatchStep(v, a).0 == v
    ensures DispatchStep(v, a).1.Err?
    ensures a.NonObject? || a.Null? <==> DispatchStep(v, a).1.error.TypeError?
  {
  }

  /**
   * An accepted action is returned as it is; the reducer moves the state on,
   * and every listener is then called once, in subscription order, seeing the
   * new state; the reducer and the listeners stay.
   */
  lemma DispatchAccepts<S>(v: StoreVal<S>, a: Action)
    requires a.Object? && a.ownType && a.typeProp.Defined?
    ensures DispatchStep(v, a).1 == Ok(a)
    ensures DispatchStep(v, a).0.state == v.reducer(v.state, a)
    ensures DispatchStep(v, a).0.reducer == v.reducer
    ensures DispatchStep(v, a).0.listeners == v.listeners
    ensures DispatchStep(v, a).0.log[..|v.log|] == v.log
    ensures |DispatchStep(v, a).0.log| == |v.log| + |v.listeners|
    ensures forall i :: 0 <= i < |v.listeners| ==>
      DispatchStep(v, a).0.log[|v.log| + i] == Notice(v.listeners[i], v.reducer(v.state, a))
  {
  }

  /** Dispatching `actions` one after the other through the base dispatch. */
  function DispatchAll<S>(v: StoreVal<S>, actions: seq<Action>): StoreVal<S>
    decreases |actions|
  {
    if actions == [] then v else DispatchAll(DispatchStep(v, actions[0]).0, actions[1..])
  }

  /** The left fold of a reducer over actions. */
  function FoldReducer<S>(r: Reducer<S>, s: S, actions: seq<Action>): S
    decreases |actions|
  {
    if actions == [] then s else FoldReducer(r, r(s, actions[0]), actions[1..])
  }

  /** Successive accepted dispatches fold the reducer over the actions. */
  lemma {:induction false} DispatchAllFolds<S>(v: StoreVal<S>, actions: seq<Action>)
    requires forall a :: a in actions ==> a.Object? && a.ownType && a.typeProp.Defined?
    ensures DispatchAll(v, actions).state == FoldReducer(v.reducer, v.state, actions)
    ensures DispatchAll(v, actions).reducer == v.reducer
    ensures DispatchAll(v, actions).listeners == v.listeners
    ensures |DispatchAll(v, actions).log| == |v.log| + |actions| * |v.listeners|
    decreases |actions|
  {
    if actions != [] {
      var w := DispatchStep(v, actions[0]).0;
      assert actions[0] in actions;
      assert forall a :: a in actions[1..] ==> a in actions;
      DispatchAllFolds(w, actions[1..]);
      assert |actions| * |v.listeners| == |v.listeners| + (|actions| - 1) * |v.listeners|;
    }
  }

  /**
   * A reducer installed by `replaceReducer` leaves the state alone until the
   * next accepted dispatch, which is the first to use it.
   */
  lemma NextDispatchUsesReplacedReducer<S>(v: StoreVal<S>, next: Reducer<S>, a: Action)
    requires a.Object? && a.ownType && a.typeProp.Defined?
    ensures DispatchStep(v.(reducer := next), a).0.state == next(v.state, a)
    ensures DispatchStep(v, a).0.state == v.reducer(v.state, a)
  {
  }

  /** `listeners.indexOf(x)`: the first position of `x`, or -1. */
  function IndexOf<T(==)>(s: seq<T>, x: T): (i: int)
    ensures -1 <= i < |s|
    ensures i == -1 <==> x !in s
    ensures 0 <= i ==> s[i] == x && forall j :: 0 <= j < i ==> s[j] != x
    decreases |s|
  {
    if s == [] then -1
    else if s[0] == x then 0
    else
      var k := IndexOf(s[1..], x);
      if k == -1 then -1 else k + 1
  }

  /** `s.splice(i, 1)`: `s` without its element at `i`, the others in order. */
  function Splice<T>(s: seq<T>, i: nat): (r: seq<T>)
    requires i < |s|
    ensures |r| == |s| - 1
    ensures r[..i] == s[..i] && r[i..] == s[i + 1..]
    ensures multiset(r) == multiset(s) - multiset{s[i]}
  {
    assert s == s[..i] + [s[i]] + s[i + 1..];
    s[..i] + s[i + 1..]
  }

  /** What a first call of an unsubscribe handle does to the listeners. */
  function RemoveFirst<T(==)>(s: seq<T>, x: T): seq<T>
  {
    var i := IndexOf(s, x);
    if i > -1 then Splice(s, i) else s
  }

  /**
   * Removing a listener takes out exactly one copy of it, its first, and
   * leaves the other listeners in their order; an absent listener changes nothing.
   */
  lemma RemoveFirstRemovesOne<T>(s: seq<T>, x: T)
    ensures x !in s ==> RemoveFirst(s, x) == s
    ensures x in s ==> exists i :: 0 <= i < |s| && s[i] == x && x !in s[..i] &&
                                  RemoveFirst(s, x) == s[..i] + s[i + 1..]
    ensures multiset(RemoveFirst(s, x)) == multiset(s) - multiset{x}
  {
    var i := IndexOf(s, x);
    if i > -1 {
      assert s == s[..i] + [x] + s[i + 1..];
      assert RemoveFirst(s, x) == s[..i] + s[i + 1..];
    } else {
      assert x !in multiset(s);
    }
  }

  /** Unsubscribing a listener just subscribed, and not subscribed before, undoes the subscription. */
  lemma SubscribeThenUnsubscribe<T>(s: seq<T>, x: T)
    requires x !in s
    ensures RemoveFirst(s + [x], x) == s
  {
    assert IndexOf(s + [x], x) == |s|;
    assert (s + [x])[..|s|] == s;
  }

  /**
   * Removal is by value: when a listener registered before is subscribed
   * again, the handle of the later subscription removes the earlier
   * registration, and the later one stays at the end.
   */
  lemma UnsubscribeByValue<T>(s: seq<T>, x: T)
    requires x in s
    ensures RemoveFirst(s + [x], x) == RemoveFirst(s, x) + [x]
  {
    var i := IndexOf(s, x);
    var k := IndexOf(s + [x], x);
    assert (s + [x])[i] == x;
    assert k == i;
    assert (s + [x])[..i] == s[..i];
    assert (s + [x])[i + 1..] == s[i + 1..] + [x];
  }

  /**
   * The argument handling of `createStore`: a function passed as
   * `preloadedState` is the enhancer, whatever the third argument; otherwise
   * a function enhancer is used, a falsy one is no enhancer, and any other
   * value throws.
   */
  function ChooseEnhancer<S>(preloaded: Preloaded<S>, enhancer: Arg<Enhancer<S>>): (r: Result<Option<Enhancer<S>>>)
    ensures preloaded.Callable? ==> r == Ok(Some(preloaded.asEnhancer))
    ensures preloaded.Plain? && enhancer.Function? ==> r == Ok(Some(enhancer.fn))
    ensures preloaded.Plain? && enhancer.Falsy? ==> r == Ok(None)
    ensures preloaded.Plain? && enhancer.Truthy? ==> r == Err(TypeError(EnhancerNotFunction))
  {
    var chosen := if preloaded.Callable? then Function(preloaded.asEnhancer) else enhancer;
    match chosen
    case Falsy => Ok(None)
    case Truthy => Err(TypeError(EnhancerNotFunction))
    case Function(e) => Ok(Some(e))
  }

  class Store<S> {
    var state: S
    var reducer: Reducer<S>
    var listeners: seq<ListenerId>
    var log: seq<Notice<S>>
    /** The store object's `dispatch` property. */
    var dispatch: DispatchFn<S>

    function Value(): StoreVal<S>
      reads this
    {
      StoreVal(state, reducer, listeners, log)
    }

    /** The base store: state seeded by the reducer's answer to the init action. */
    constructor (reducer: Reducer<S>, preloadedState: S)
      ensures Value() == StoreVal(reducer(preloadedState, InitAction), reducer, [], [])
      ensures dispatch == DispatchStep
    {
      this.state := reducer(preloadedState, InitAction);
      this.reducer := reducer;
      this.listeners := [];
      this.log := [];
      this.dispatch := DispatchStep;
    }

    /** `getState()`: the current state. */
    method GetState() returns (s: S)
      ensures s == state
    {
      s := state;
    }

    /** The dispatch closure the base store is built with. */
    method BaseDispatch(action: Action) returns (r: Result<Action>)
      modifies this`state, this`log
      ensures (Value(), r) == DispatchStep(old(Value()), action)
    {
      if action.NonObject? {
        return Err(TypeError(ActionNotObject));
      }
      if action.Null? {
        return Err(TypeError(PropertyOfNull));
      }
      if !action.ownType || action.typeProp.Undefined? {
        return Err(Error(ActionWithoutType));
      }
      assert ActionError(action).None?;
      state := reducer(state, action);
      var i := 0;
      while i < |listeners|
        invariant 0 <= i <= |listeners|
        invariant state == reducer(old(state), action)
        invariant log == old(log) + Notify(listeners[..i], state)
      {
        log := log + [Notice(listeners[i], state)];
        i := i + 1;
      }
      assert listeners[..i] == listeners;
      return Ok(action);
    }

    /** `store.dispatch(action)`: calls whatever function the `dispatch` property holds. */
    method Dispatch(action: Action) returns (r: Result<Action>)
      modifies this`state, this`reducer, this`listeners, this`log
      ensures (Value(), r) == old(dispatch)(old(Value()), action)
    {
      var outcome := dispatch(Value(), action);
      var v := outcome.0;
      state, reducer, listeners, log := v.state, v.reducer, v.listeners, v.log;
      r := outcome.1;
    }

    /** `subscribe(listener)`: appends a function, and returns its unsubscribe handle. */
    method Subscribe(listener: Arg<ListenerId>) returns (r: Result<Unsubscribe<S>>)
      modifies this`listeners
      ensures !listener.Function? ==> r == Err(TypeError(ListenerNotFunction)) && listeners == old(listeners)
      ensures listener.Function? ==>
        && listeners == old(listeners) + [listener.fn]
        && r.Ok? && fresh(r.value)
        && r.value.store == this && r.value.listener == listener.fn && !r.value.called
    {
      if !listener.Function? {
        return Err(TypeError(ListenerNotFunction));
      }
      listeners := listeners + [listener.fn];
      var handle := new Unsubscribe(this, listener.fn);
      return Ok(handle);
    }

    /** `replaceReducer(nextReducer)`: swaps the reducer, nothing else. */
    method ReplaceReducer(nextReducer: Arg<Reducer<S>>) returns (r: Result<()>)
      modifies this`reducer
      ensures !nextReducer.Function? ==> r == Err(TypeError(ReducerNotFunction)) && reducer == old(reducer)
      ensures nextReducer.Function? ==> r == Ok(()) && reducer == nextReducer.fn
    {
      if !nextReducer.Function? {
        return Err(TypeError(ReducerNotFunction));
      }
      reducer := nextReducer.fn;
      return Ok(());
    }
  }

  /** The function `subscribe` returns, with its own `called` flag. */
  class Unsubscribe<S> {
    const store: Store<S>
    const listener: ListenerId
    var called: bool

    constructor (store: Store<S>, listener: ListenerId)
      ensures this.store == store && this.listener == listener && !called
    {
      this.store := store;
      this.listener := listener;
      this.called := false;
    }

    /** Only the first call removes the listener, by value; later calls do nothing. */
    method Call()
      modifies this`called, store`listeners
      ensures called
      ensures store.listeners ==
        if old(called) then old(store.listeners) else RemoveFirst(old(store.listeners), listener)
    {
      var listeners := store.listeners;
      var index := IndexOf(listeners, listener);
      if index > -1 && !called {
        store.listeners := Splice(listeners, index);
      }
      called := true;
    }
  }

  /**
   * `createStore(reducer, preloadedState, enhancer)`: checks the reducer,
   * builds the base store, then returns it or what the enhancer makes of it.
   * `base` is the base store built on the way.
   */
  method CreateStore<S>(reducer: Arg<Reducer<S>>, preloaded: Preloaded<S>, enhancer: Arg<Enhancer<S>>)
    returns (r: Result<Store<S>>, ghost base: Store?<S>)
    ensures !reducer.Function? ==> r == Err(TypeError(ReducerNotFunction))
    ensures reducer.Function? ==>
      && base != null && fresh(base)
      && base.Value() == StoreVal(reducer.fn(preloaded.value, InitAction), reducer.fn, [], [])
      && base.dispatch == DispatchStep
      && match ChooseEnhancer(preloaded, enhancer)
         case Err(e) => r == Err(e)
         case Ok(None) => r.Ok? && r.value == base
         case Ok(Some(e)) => r.Ok? && r.value == e(base)
  {
    base := null;
    if !reducer.Function? {
      return Err(TypeError(ReducerNotFunction)), base;
    }
    var store := new Store(reducer.fn, preloaded.value);
    base := store;
    var chosen := ChooseEnhancer(preloaded, enhancer);
    match chosen
    case Err(e) => r := Err(e);
    case Ok(None) => r := Ok(store);
    case Ok(Some(e)) => r := Ok(e(store));
  }
}

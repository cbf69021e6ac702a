# A Redux-style store, modelled in Dafny

This project models the three parts of a small Redux-style state container.

- `compose` builds one function out of a list of functions, applied right to left. It does this with a seedless left `reduce` of closures.
- `createStore` builds a store. The store holds the current `state`, the `reducer` and a `listeners` array. It offers `getState`, `dispatch`, `subscribe` (which returns an unsubscribe handle) and `replaceReducer`. It also sorts out whether `preloadedState` or a third argument is the enhancer.
- `applyMiddleware` gives every middleware one API object. It composes the resulting chain onto the store's original `dispatch` and overwrites the store's `dispatch` property with the result.

The files:

- `compose.dfy` (module `Compose`) holds only functions and lemmas, since `compose` changes no state. `Compose` is the faithful fold. `Nested` is the reference meaning `f1(f2(...fn(x)))`, and lemmas connect the two.
- `createstore.dfy` (module `CreateStore`) models the store as an object whose fields its methods update in place. The closure variables of `createStore` are the fields of the class `Store`. The unsubscribe closure is the class `Unsubscribe`, which has its own `called` flag. JavaScript values are explicit datatypes:
  - `Arg` is a function, a falsy value or a truthy value.
  - `Action` is a non-object, `null`, or an object with an own-`type` flag and the value `action.type` reads.
  - `Preloaded` is a plain value or a function.
  - What a call throws is the tagged `Result`/`Thrown`.
- Listeners are opaque ids. Calling a listener appends a `Notice` to the store's log. The notice records the listener and the state it would read through `getState` at that moment.
- The dispatch closure appears twice, on purpose:
  - `Store.BaseDispatch` is the closure as the source writes it, with its `forEach` loop.
  - `DispatchStep` is the same closure as a pure transformer of the store's value, `(StoreVal, Action) -> (StoreVal, Result)`. This is what the store's `dispatch` property holds and what middleware composes.
  - `BaseDispatch` is proved to compute exactly `DispatchStep`.
- `applymiddleware.dfy` (module `ApplyMiddleware`) builds the middleware chain with pure functions and installs it with a method that overwrites the store's `dispatch` field. A middleware is `API -> DispatchFn -> DispatchFn`, so composing the chain is an instance of `Compose`.

Where a reader might expect otherwise, the model follows the code:

- The enhancer is applied to the built store: `enhancer(store)` at src/createStore.js:74. The comment at src/applyMiddleware.js:5-10 describes an enhancer as a function of `createStore`.
- Notification iterates the live `listeners` array and takes no snapshot.
- `middlewareAPI.dispatch` is the store's dispatch as it was before the overwrite. It is captured eagerly and is not late-bound.
- `null` as an action fails when `null.hasOwnProperty` is called. The engine throws that `TypeError`, not the explicit one at line 48.
- Validation errors are JavaScript `TypeError`s and `Error`s with the source's own messages.

## Model

| member | source | states |
|---|---|---|
| `Compose.Compose` | src/compose.js:17-20 | the composite of exactly one function is that function: with no seed, `reduce` returns the sole element |
| `Compose.ComposeEmpty` | src/compose.js:19 | with zero functions the composite returns its argument unchanged |
| `Compose.ReduceIsNested` | src/compose.js:20 | folding the remaining functions into the accumulator applies them nested, the accumulator last |
| `Compose.ComposeIsNested` | src/compose.js:17-20 | for every list and argument, the left fold of closures equals `f1(f2(...fn(x)))` |
| `Compose.ComposeAppend` | src/compose.js:20 | composing `fs + gs` equals composing `fs` after composing `gs` |
| `Compose.TagsInReverse` | src/compose.js:8-13 | if the i-th function appends tag i, the output lists the tags last to first, each exactly once |
| `CreateStore.ActionError` | src/createStore.js:48-49 | an action is accepted iff it is an object with an own `type` that is not `undefined`; a non-object and `null` raise `TypeError`, other objects raise `Error` |
| `CreateStore.DispatchRejects` | src/createStore.js:48-49 | a rejected dispatch throws and leaves state, reducer, listeners and log as they were, so no listener is called |
| `CreateStore.DispatchAccepts` | src/createStore.js:50-52 | an accepted dispatch returns the same action, sets the state to `reducer(state, action)`, keeps reducer and listeners, then calls every listener once in order, each seeing the new state |
| `CreateStore.DispatchAllFolds` | src/createStore.js:50 | a run of accepted dispatches leaves the left fold of the reducer over the actions as the state, and the same reducer and listeners |
| `CreateStore.NextDispatchUsesReplacedReducer` | src/createStore.js:66-69 | after a reducer swap the next accepted dispatch applies the new reducer to the unchanged state; before it, the old one applies |
| `CreateStore.NotifyCallsEachOnce` | src/createStore.js:51 | one notification pass calls exactly the registered listeners, in registration order, one call per registration (the multiset of calls equals the multiset of registrations), and every call observes the same state |
| `CreateStore.NotifyAppend` | src/createStore.js:51 | a pass over two runs of listeners is the pass over the first run followed by the pass over the second |
| `CreateStore.IndexOf` | src/createStore.js:59 | `indexOf` returns -1 iff the listener is absent, and otherwise the position of its first occurrence |
| `CreateStore.Splice` | src/createStore.js:61 | `splice(i, 1)` drops element i: the elements before it and the elements after it keep their order, and the result holds the original elements less one copy of element i |
| `CreateStore.RemoveFirstRemovesOne` | src/createStore.js:59-62 | removal takes out exactly the first copy of the listener and keeps the others in order; an absent listener changes nothing |
| `CreateStore.SubscribeThenUnsubscribe` | src/createStore.js:56-62 | unsubscribing a listener just subscribed, and not subscribed before, restores the previous listeners |
| `CreateStore.UnsubscribeByValue` | src/createStore.js:59-61 | removal is by value: for any registry that already holds a listener, the handle of a later subscription of it removes the earlier registration and the later one stays at the end |
| `CreateStore.ChooseEnhancer` | src/createStore.js:71-73 | a function as `preloadedState` is the enhancer whatever the third argument is; otherwise a function enhancer is used, a falsy one means none, a truthy non-function throws `TypeError` |
| `CreateStore.Store.constructor` | src/createStore.js:42-45 | the initial state is `reducer(preloadedState, {type: '@@init'})`, listeners and log are empty, and the dispatch property is the base dispatch |
| `CreateStore.Store.GetState` | src/createStore.js:46 | returns the current state and changes nothing |
| `CreateStore.Store.BaseDispatch` | src/createStore.js:47-53 | the dispatch closure with its `forEach` loop computes exactly `DispatchStep`, and it changes only state and log |
| `CreateStore.Store.Dispatch` | src/createStore.js:45-53 | calling `store.dispatch(action)` runs whatever function the dispatch property holds and commits the value it returns |
| `CreateStore.Store.Subscribe` | src/createStore.js:54-57 | a non-function throws `TypeError` and leaves listeners unchanged; a function is appended at the end, and a fresh handle with `called` false is returned |
| `CreateStore.Store.ReplaceReducer` | src/createStore.js:66-69 | a non-function throws `TypeError` and keeps the reducer; a function replaces it, and state, listeners and log stay |
| `CreateStore.Unsubscribe.constructor` | src/createStore.js:57-58 | a new handle belongs to its store and listener and has not been called |
| `CreateStore.Unsubscribe.Call` | src/createStore.js:58-64 | only the first call removes the listener's first occurrence; later calls leave the listeners unchanged; `called` ends up true |
| `CreateStore.CreateStore` | src/createStore.js:40-77 | a non-function reducer throws `TypeError` before anything else; otherwise the base store is built, and its result is the base store itself, the enhancer's return value on it, or the enhancer `TypeError` |
| `ApplyMiddleware.Chain` | src/applyMiddleware.js:40 | the chain has one entry per middleware, and entry i is middleware i applied to the same `api` |
| `ApplyMiddleware.EnhanceIsWrap` | src/applyMiddleware.js:40-42 | the composed dispatch equals `m1(api)(m2(api)(...mn(api)(dispatch)))` |
| `ApplyMiddleware.EnhanceEmpty` | src/applyMiddleware.js:42 | with no middlewares the composed dispatch is the original dispatch |
| `ApplyMiddleware.EnhanceOutermostFirst` | src/applyMiddleware.js:40-42 | the leftmost middleware is outermost, and its `next` is the composite of the rest |
| `ApplyMiddleware.PassingOnReachesDispatch` | src/applyMiddleware.js:42 | if every middleware passes an action on unchanged, the composed dispatch acts like the original one |
| `ApplyMiddleware.StoppedActionNeverArrives` | src/applyMiddleware.js:40-43 | if a middleware answers an action without calling `next`, the composite returns that answer on the store the middlewares before it passed on, whatever the middlewares after it and the wrapped dispatch are, so the action is never passed along `next`; the answer itself may still call `api.dispatch` |
| `ApplyMiddleware.StoppedLeavesStore` | src/applyMiddleware.js:40-43 | the special case of a stopping middleware that answers with a value alone: the store value is unchanged |
| `ApplyMiddleware.InterceptingStops` | src/applyMiddleware.js:75-81 | a thunk-shaped middleware in front runs the actions it handles against the middleware API instead of passing them on, and is transparent for all others |
| `ApplyMiddleware.RecordingOrder` | src/applyMiddleware.js:40-42 | middlewares that log a tag each and pass the action on reach the original dispatch with the tags logged first to last |
| `ApplyMiddleware.RecordingBeforeListeners` | src/applyMiddleware.js:40-43 | over the base dispatch, the middleware tags come before the listener calls, and the listeners see the reducer's new state |
| `ApplyMiddleware.ApplyMiddleware` | src/applyMiddleware.js:36-44 | every middleware gets one API whose `getState` reads the store's state and whose `dispatch` is the dispatch before the overwrite; only the `dispatch` property changes, and it becomes the composed chain |
| `ApplyMiddleware.CreateWithMiddleware` | src/applyMiddleware.js:34-44 | with the base `createStore` and no enhancer, the store is built from exactly the given reducer and preloaded state, and its dispatch wraps the base dispatch |

## Left out

- Listener side effects and re-entrancy are not modelled. A listener or middleware that calls `dispatch`, `subscribe` or an unsubscribe handle during notification is out of scope. So is a `splice` during the live `forEach`, which can skip a pending listener. Listeners are ids whose calls are logged, so a pass cannot change the registry.
- Exceptions thrown by reducers, listeners or middleware are not modelled. All three are total functions here.
- `ApplyMiddleware.CreateWithMiddleware` covers only one call shape of the forwarding at src/applyMiddleware.js:35: a plain `preloadedState` and no enhancer. A function passed as `preloadedState`, which src/createStore.js:71 turns into the enhancer, and a forwarded `enhancer` are not covered, because the method would have to install the dispatch on a store an opaque enhancer hands back, and a method's frame cannot name a store it has not yet seen.
- `ApplyMiddleware.ApplyMiddleware` does not itself make the call to the given `createStore` at src/applyMiddleware.js:35. It takes the store that call returned, because Dafny cannot pass a method as a value. Also, a method precondition cannot restrict which existing store an enhancer hands back for a fresh one. `ApplyMiddleware.CreateWithMiddleware` covers the base `createStore` with no enhancer.
- End-to-end enhancer integration is not modelled. src/createStore.js:74 calls `enhancer(store)`, while src/applyMiddleware.js:34 expects `createStore`. An enhancer is an opaque function from the built store to a store.
- `CreateStore.CreateStore` models an enhancer as effect-free: a Dafny function value cannot read or change the heap, so the enhancer can neither inspect nor alter the store it is given. In the source, src/createStore.js:74 hands the live store to arbitrary code, which may dispatch, subscribe or overwrite `store.dispatch` (as src/applyMiddleware.js:43 does). The ensures about `base` therefore describe the store as built at src/createStore.js:42-45, not after an effectful enhancer has run.
- The model is more permissive about middleware than JavaScript. A dispatch is a transformer of the store's whole value, so a middleware could change the listeners or the reducer, which JavaScript middleware cannot do.
- The dispatch property holds `DispatchStep`, not the `BaseDispatch` method, because a field cannot hold a method. `BaseDispatch` is proved equal to `DispatchStep`.
- In `compose`, only the rightmost function may take several arguments. The model does not cover variadic arguments beyond the first.
- Reference identity of functions (`compose(f) === f`) is not modelled. Value equality of Dafny functions stands in for it.
- An action's properties other than `type` are not modelled. `action.type` is modelled as a string when it is defined. Prototype-chain subtleties of `hasOwnProperty` are reduced to an own-property flag.
- The commented-out alternative `applyMiddleware` (src/applyMiddleware.js:50-67) is not modelled. The commented-out thunk (src/applyMiddleware.js:74-87) enters only as the shape of `Intercepting`.
- `require`/`module.exports` plumbing is not modelled.

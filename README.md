# connect-component, modelled in Dafny

This project models the three parts of the connect-component binding layer
that have behaviour of their own. The binding layer connects a reactive data
store to a component framework.

- **Subscription** (`subscription.dfy`, module `Subscriptions`): the ordered
  list of listeners that store updates are sent to. `subscribe` pushes a
  listener onto the JavaScript array that is current at that moment. It hands
  back an `unsubscribe` closure bound to that same array. The closure removes
  the first copy it finds with `indexOf`/`splice`. `notify` calls every
  listener on a snapshot of the list, in order, with `data`. `destroy`
  installs a fresh empty array. The array is a heap object (`ListenerArray`),
  so a handle issued before `destroy` keeps acting on the old array. This is
  proved, as is the duplicate-listener behaviour. `Subscription.ts` and
  `Subscription.js` behave the same, so one model covers both.
- **Memoising selector** (`select.dfy`, module `Select`, for `select.ts`;
  `select_legacy.dfy`, module `SelectLegacy`, for `select.js`): the
  `generateProps` closure and its one-entry cache (`prevInputs`, `prevProps`,
  `prevResult`), modelled as the class `Memo` with those fields. The pure
  function `Step` is its specification, and the lemmas are stated about
  `Step`. The older JavaScript version compares props even when `prevProps` is
  still `undefined`, and it calls `computeResult(inputs, props)` without the
  context. `SelectLegacy.ComparesUndefinedProps` exhibits the case where the
  two versions part. `SelectLegacy.DifferExactlyOnUndefinedProps` proves that
  their recompute decisions differ in that case and in no other.
- **Props bag** (`props_bag.dfy`, module `PropsBag`, for `src/index.js` and
  its compiled copy `index.js`): the props object is a class `Props` holding a
  `map<string, Value>` of its own properties and a `frozen` flag. The
  `propsFactory` closure is the class `Factory`. Each operation is a method
  proved against a pure function (`Instance`, `Child`, `Cloned`, `Extracted`,
  `Lookup`, `DestroyResult`, `SetLocaleResult`). The lemmas state what the
  tests assert about those functions.

JavaScript values are the datatype `JsValue.Value` (`js_value.dfy`). A thrown
`TypeError` is `Err(TypeError)`. The files are in `'use strict'` mode, so a
write to a frozen object throws; `setLocale` and `destroy` model this.

Collaborators that are not shown become parameters of the model:

- the `isEqual` of `@yr/is-equal`, the `isBrowser` flag, the input selectors
  and `computeResult` are fields of `Select.Config` / `SelectLegacy.Config`;
- the data-store library is `PropsBag.StoreLib`: `get()`, `get(key)` and
  `createCursor(key)` as functions of a store id, passed to each call;
- `dataFactory` is the sequence of values its successive calls return.
  `Factory.made` counts those calls, so it is observable that `dataFactory` is
  called only when `data` is falsy;
- `locales.get` is a function from locale code to value;
- `module.exports` is the class `Exports`. Its `bootstrap` property starts as
  `true`, any code may reassign it, and `extract` reads its current value.

## Model

| member | source | states |
|---|---|---|
| `Subscriptions.RemoveFirst` | src/lib/Subscription.ts:19-23 | the list an `unsubscribe` call leaves: `indexOf`, then `splice(idx, 1)` only when the listener was found (its properties are the lemmas below) |
| `Subscriptions.IndexOf` | src/lib/Subscription.ts:19 | the result is -1 exactly when the listener is absent; otherwise it is the position of its first occurrence |
| `Subscriptions.RemoveFirstRemovesOne` | src/lib/Subscription.js:18-23 | `unsubscribe` removes exactly one copy of a present listener (multiset minus one, length minus one) and leaves the list unchanged when the listener is absent |
| `Subscriptions.UnsubscribeAfterSubscribe` | src/lib/Subscription.ts:17-23 | subscribing then unsubscribing a new listener restores the list; for a listener already present, the earlier copy is removed and the new one stays at the end |
| `Subscriptions.UnsubscribeTwice` | src/lib/Subscription.ts:19-23 | for a listener subscribed once, a second `unsubscribe` call leaves the list unchanged |
| `Subscriptions.ReplayUntouched` | src/lib/Subscription.ts:30-36 | when no listener changes the live list, `notify` ends with the list it started with |
| `Subscriptions.ListenerArray.Push` | src/lib/Subscription.ts:17 | `push` appends at the end |
| `Subscriptions.ListenerArray.Splice` | src/lib/Subscription.ts:22 | `splice(idx, 1)` removes element `idx` and keeps the order of the rest |
| `Subscriptions.Unsubscribe.Call` | src/lib/Subscription.ts:18-24 | the closure changes only the array it captured: afterwards that array is the old one with the first copy of the listener removed |
| `Subscriptions.Subscription.constructor` | src/lib/Subscription.ts:5-8 | a new subscription holds the given data and a fresh empty listener array |
| `Subscriptions.Subscription.Subscribe` | src/lib/Subscription.ts:14-25 | the list becomes the old list with the listener appended; the returned handle is bound to the current array; data is unchanged |
| `Subscriptions.Subscription.Notify` | src/lib/Subscription.ts:30-36 | each entry of the snapshot is called once, in order, with `data`, even when listeners change the live list during the pass; `data` and the array reference are unchanged |
| `Subscriptions.Subscription.Destroy` | src/lib/Subscription.ts:41-44 | data becomes null and a fresh, empty listener array is installed |
| `Subscriptions.DuplicateSubscriptions` | src/lib/Subscription.js:14-24 | the same listener subscribed twice gives two entries; each handle call removes one copy, and a call with no copy left changes nothing |
| `Subscriptions.StaleHandleAfterDestroy` | src/lib/Subscription.js:15-24 | a handle issued before `destroy` empties only the old array; the list installed by `destroy` keeps its new listener, and data is null |
| `Subscriptions.StaleHandleAnySubscription` | src/lib/Subscription.ts:14-25 | for any subscription and any handle issued before `destroy`: calling the handle afterwards changes only the array it captured, and the list installed by `destroy` keeps what was subscribed since |
| `Subscriptions.NotifyWhileUnsubscribing` | src/lib/Subscription.js:30-36 | when a listener unsubscribes a later one mid-pass, both are still called in that pass, in order, and only the first remains subscribed |
| `Select.Step` | src/lib/select.ts:10-35 | one call of `generateProps` from a given cache: its result, whether it ran `computeResult`, and the cache it leaves (its properties are the lemmas below) |
| `Select.FirstCallComputes` | src/lib/select.ts:12-13 | with nothing cached, the first call runs `computeResult(inputs, context, props)` |
| `Select.CacheHitIff` | src/lib/select.ts:15-26 | the cached result is returned if and only if a result is cached, props equal the defined `prevProps`, and every input equals `prevInputs[i]`; otherwise the result is `computeResult(inputs, context, props)` |
| `Select.CacheWrittenOnlyInBrowser` | src/lib/select.ts:28-32 | in a browser, the cache holds this call's inputs, props and result afterwards; otherwise it is left exactly as it was |
| `Select.NonBrowserAlwaysRecomputes` | src/lib/select.ts:26-32 | outside a browser, every call of any series of calls runs `computeResult` on its own inputs |
| `Select.BrowserRepeatHits` | src/index.spec.tsx:159-174 | in a browser, with a reflexive `isEqual`, a repeated identical call returns the first result without recomputing (unless that result was undefined) |
| `Select.UndefinedResultNotCached` | src/lib/select.ts:12 | a call whose result is undefined leaves nothing usable cached, so the next call recomputes |
| `Select.NewPropsRecompute` | src/index.spec.tsx:212-227 | props that differ from the defined props of the previous call make the next call recompute with the new props |
| `Select.NewInputRecomputes` | src/index.spec.tsx:176-193 | a selector output that differs from the previous call's makes the next call recompute with the new inputs |
| `Select.Memo.constructor` | src/lib/select.ts:6-8 | a new closure starts with `prevInputs`, `prevProps` and `prevResult` all undefined |
| `Select.Memo.Evaluate` | src/lib/select.ts:11-24 | all n selectors run in order on `(context, props)` and fill n slots; the flag is set exactly when the cached result cannot be used |
| `Select.Memo.GenerateProps` | src/lib/select.ts:10-35 | the returned value and the new cache are those of one `Step` from the old cache |
| `SelectLegacy.Step` | src/lib/select.js:10-38 | one call of the older `generateProps`: props compared without the `undefined` guard, `computeResult(inputs, props)` |
| `SelectLegacy.FirstCallComputes` | src/lib/select.js:12-13 | with nothing cached, the first call runs `computeResult(inputs, props)` |
| `SelectLegacy.CacheHitIff` | src/lib/select.js:26-29 | the cached result is returned if and only if a result is cached, `isEqual(props, prevProps)` holds, and every input equals its cached one; otherwise the result is `computeResult(inputs, props)`, without context |
| `SelectLegacy.CacheWrittenOnlyInBrowser` | src/lib/select.js:31-35 | the cache is written, with this call's inputs, props and result, only when `runtime.isBrowser` holds |
| `SelectLegacy.NonBrowserAlwaysRecomputes` | src/lib/select.js:26-35 | outside a browser, every call of any series recomputes |
| `SelectLegacy.ComparesUndefinedProps` | src/lib/select.js:15-17 | props are compared even against an undefined `prevProps`: in that case this version recomputes where the TypeScript version returns the cached result |
| `SelectLegacy.AgreesOnDefinedProps` | src/lib/select.js:13-17 | once defined props are cached, the two versions make the same cache decision |
| `SelectLegacy.DifferExactlyOnUndefinedProps` | src/lib/select.js:13-17 | the two versions' recompute decisions differ if and only if a result is cached under undefined props, no input changed, and `isEqual(props, undefined)` is false |
| `SelectLegacy.Memo.constructor` | src/lib/select.js:6-8 | a new closure starts with nothing cached |
| `SelectLegacy.Memo.Evaluate` | src/lib/select.js:11-24 | all selectors run in order and fill n slots; the flag is set exactly when the cached result cannot be used |
| `SelectLegacy.Memo.GenerateProps` | src/lib/select.js:10-38 | the returned value and the new cache are those of one `SelectLegacy.Step` |
| `PropsBag.Instance` | src/index.js:29-47 | the properties of `propsFactory(data, props)`, or the TypeError of `data.update` on a non-store (properties in `InstanceShape`) |
| `PropsBag.Child` | src/index.js:59-71 | the properties of `create(key, props)` (properties in `ChildShape`) |
| `PropsBag.Cloned` | src/index.js:78-86 | the properties of `clone(props)` (properties in `CloneKeepsChild`) |
| `PropsBag.Extracted` | src/index.js:92-112 | the properties after `extract(dataKeys)` on an unfrozen object (properties in the `Extract*` lemmas) |
| `PropsBag.Lookup` | src/index.js:128-139 | the answer of `get(key)`, the key being optional: `get()` tests the property `"undefined"` and asks each store for its whole value (properties in `LookupOrder`) |
| `PropsBag.SetLocaleResult` | src/index.js:146-148 | the properties after `setLocale`, or the TypeError of a write to a frozen object |
| `PropsBag.DestroyResult` | src/index.js:165-170 | the properties after `destroy()`, or its TypeError (properties in `DestroyShape`) |
| `PropsBag.InstanceShape` | index.js:29-47 | `dataFactory` is used only when `data` is falsy; passed props survive unless a fixed entry of the same name overrides them; the fixed entries hold the chosen data, the settings, a null locale and `destroyed = false` |
| `PropsBag.ChildShape` | index.js:59-74 | an absent key means `''`; a non-string key is taken as the props; `''` shares the parent's data, any other key gets `createCursor(key)`, which throws without a parent store; the child always gets the parent's locale; `create` succeeds exactly when the parent holds a store, or the key is `''` and a falsy parent data is replaced by a store from `dataFactory` |
| `PropsBag.CloneKeepsChild` | index.js:81-89 | the clone has the keys of both objects; every value that `create` set is kept, and every parent property the new instance lacks is copied; `clone` succeeds exactly when `create` does, so always on a parent holding a store |
| `PropsBag.ExtractNeverOverwrites` | index.js:108-113 | the `forEach` branch of `extract` never changes a property the object already has |
| `PropsBag.ExtractAddsOnlyRequested` | src/index.js:102-108 | every property the `forEach` branch of `extract` adds was requested; `bootstrap` gets the current `module.exports.bootstrap`, and any other key gets its non-null data value |
| `PropsBag.ExtractFillsRequested` | index.js:108-113 | in the `forEach` branch of `extract`, every requested key the object lacks is filled: `bootstrap` with the current `module.exports.bootstrap`, any other key with its data value when that is not null or undefined |
| `PropsBag.ExtractedKeepsAndFills` | src/index.js:95-108 | `extract` as a whole, when the store's value is truthy and it is not the single-key array case: it succeeds, keeps every existing property, adds only requested keys (`bootstrap` gets the current `module.exports.bootstrap`, other keys their non-null data value), and fills every requested key the object lacks whose value is not null |
| `PropsBag.ExtractSpecialCases` | index.js:99-106 | falsy store data changes nothing; array data with exactly one key is assigned whole to that key, even when the key was present, and no other property changes |
| `PropsBag.LookupOrder` | index.js:135-146 | an own property wins; otherwise `data` is asked first and its non-null answer (or its TypeError) is the result whatever `locale` holds; only after a null answer is `locale` asked, and only after two null answers does `settings` give the result |
| `PropsBag.LookupThrowsWithoutLocale` | src/index.js:134-135 | while the locale is still null, looking up a key that is missing from the object and from `data` throws a TypeError |
| `PropsBag.DestroyShape` | index.js:172-177 | `destroy` nulls `data`, `locale`, `settings` and `update`, sets `destroyed`, keeps every other property, and a second `destroy` throws |
| `PropsBag.Exports.constructor` | src/index.js:12-13 | `module.exports.bootstrap` starts as `true` |
| `PropsBag.Factory.constructor` | src/index.js:22-29 | `factory(...)` captures its collaborators, and no `dataFactory` call has happened yet |
| `PropsBag.Factory.Make` | src/index.js:29-47 | `propsFactory(data, props)` calls `dataFactory` once exactly when `data` is falsy, and returns a fresh, unfrozen object whose properties are `Instance(...)`, or throws when the chosen data is not a store |
| `PropsBag.Props.Freeze` | src/index.js:93-94 | the host's `Object.freeze` sets the flag that `extract` tests and leaves the properties as they are |
| `PropsBag.Props.Create` | src/index.js:59-71 | `create` leaves the parent unchanged and returns a fresh object whose properties are `Child(...)` |
| `PropsBag.Props.Clone` | src/index.js:78-86 | `clone` returns a fresh object whose properties are the created child's plus the parent's missing ones (`Cloned(...)`) |
| `PropsBag.Props.Extract` | src/index.js:92-112 | on a frozen object nothing changes; otherwise the properties become `Extracted(...)` with the current `module.exports.bootstrap`, or stay as they were when `this.data.get` throws |
| `PropsBag.Props.Get` | src/index.js:128-139 | the answer is `Lookup(...)` for a given or absent key: own property first, then the stores in order |
| `PropsBag.Props.SetLocale` | src/index.js:146-148 | the locale becomes `locales.get(code)`; on a frozen object it throws and nothing changes |
| `PropsBag.Props.Destroy` | src/index.js:165-170 | the properties become `DestroyResult(...)`; it throws, leaving them unchanged, when `data` is not a store or the object is frozen |

## Left out

- `connect` (src/lib/connect.tsx, src/lib/connect.js) and the Provider files: they are lifecycle glue for the host component framework.
- `isEqual` of the props object (src/index.js:119-121) and `@yr/is-equal` itself: the comparison's code is not shown. The selector model takes it as an abstract function.
- `toJSON` (src/index.js:154-160): it only forwards to the stores' own serialisers.
- `PropsBag.Props.Destroy`: does not model what `this.data.destroy()` does to the store itself. The store library is external; only the TypeError on a non-store is modelled.
- `Subscriptions.Subscription.Notify`: a listener's side effects are limited to changing the live list (`respond`). A listener that throws, or that calls `destroy` during the pass, is not modelled.
- Selectors and `computeResult` are pure functions. Their side effects are not modelled, and neither is the identity of a freshly built result object. `Outcome.recomputed` stands for "`computeResult` was called".
- The `in` operator is modelled as own-property membership. Properties inherited from `Object.prototype` (`toString`, `constructor`, ...) are not modelled.
- `Member`: reading `data[key]` from array or string data gives `undefined` in the model (no index or `length` properties). `OwnProps`: `assign({}, props)` of a string or array copies nothing in the model.
- `store.get(undefined)`, which `get()` without a key sends to each store, is taken to answer the store's whole value, as `store.get()` does. The store library's code is not shown.
- A truthy `data` argument that is not a store is modelled as a TypeError, even if it happens to have an `update` method.
- Bound methods are `Fn(name)` values. They do not record the object they are bound to.
- JavaScript numbers are modelled as integers, so `NaN` and fractions are not modelled.

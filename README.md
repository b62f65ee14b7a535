# MultiTypeAdapter: type-to-binder dispatch, modelled in Dafny

`MultiTypeAdapter` is the RecyclerView adapter of the MultiType library. It
keeps a registry of (class, `ItemViewBinder`) pairs in a `TypePool` it
delegates to. For each list position it flattens the item (optionally through a
`FlatTypeAdapter`), looks up the flattened class in the registry, and hands
view creation and binding to the binder it finds. This project models that
dispatch:

- `values.dfy` (module `Values`): class tags (`Class<?>` as an opaque tag with
  exact equality), items with their runtime class, the `FlatTypeAdapter` as a
  pair of functions, `BinderNotFoundException`, and the Android values the
  adapter only passes through.
- `adapter.dfy` (module `MultiType`): the classes `ItemViewBinder` (its
  back-reference `adapter`), `TypePool` (two index-aligned lists, with
  `Valid()` stating the alignment) and `MultiTypeAdapter` (fields `items`,
  `delegate`, `inflater`, `providedFlatTypeAdapter`). Setters, registration,
  `registerAll` and `onCreateViewHolder` are methods that change these fields
  in place. The read-only operations are functions of the current fields.
- `properties.dfy` (module `AdapterProperties`): lemmas that relate the
  operations, and a client method that walks through a small example
  (Cat, Dog, Bird).

Calls out of the core become values. `LayoutInflater.from(context)` is the
value `InflaterFrom(context)`. `binder.onCreateViewHolder(...)` and
`binder.onBindViewHolder(...)` are returned as `CreateRequest` and
`BindRequest` records that say which binder gets which arguments.

The pool's lookup is a first-match scan (`IndexOfTag`) whose contract
promises less: `indexOf` returns -1 exactly when the class is not registered,
and otherwise a position holding exactly that class. Which of several equal
registrations wins is not promised, because the default `MultiTypePool`
implementation is not part of this model. No lemma relies on more than these
contracts. The pool's `getBinderByClass` is specified to return the binder
at the position its own `indexOf` reports.

## Model

| member | source | states |
|---|---|---|
| MultiType.IndexOfTag | library/src/main/java/me/drakeet/multitype/MultiTypeAdapter.java:161 | the pool's lookup over its class list: -1 exactly when the class is absent, otherwise an in-range position holding exactly that class |
| MultiType.TypePool.constructor | library/src/main/java/me/drakeet/multitype/MultiTypeAdapter.java:44 | a new default pool is empty and aligned |
| MultiType.TypePool.Register | library/src/main/java/me/drakeet/multitype/MultiTypeAdapter.java:69 | appends the class and the binder at the same new position, so the lists stay aligned; an already-registered class is appended again |
| MultiType.TypePool.IndexOf | library/src/main/java/me/drakeet/multitype/MultiTypeAdapter.java:161 | the delegate's `indexOf`: -1 or a valid index whose class equals the query, -1 exactly when the class is not registered |
| MultiType.TypePool.GetBinderByIndex | library/src/main/java/me/drakeet/multitype/MultiTypeAdapter.java:201 | positional access: exactly the binder at that index, and the class at that index resolves |
| MultiType.TypePool.GetBinderByClass | library/src/main/java/me/drakeet/multitype/MultiTypeAdapter.java:207 | found exactly when the class is registered, and then it is the binder at the position `indexOf` reports, which holds that class |
| MultiType.MultiTypeAdapter.constructor | library/src/main/java/me/drakeet/multitype/MultiTypeAdapter.java:38-40 | no items, a fresh empty pool, no inflater, no flattening |
| MultiType.MultiTypeAdapter.WithItems | library/src/main/java/me/drakeet/multitype/MultiTypeAdapter.java:43-45 | the given items with a fresh empty pool |
| MultiType.MultiTypeAdapter.WithCapacity | library/src/main/java/me/drakeet/multitype/MultiTypeAdapter.java:48-50 | the given items with a fresh empty pool; the capacity changes no observable state |
| MultiType.MultiTypeAdapter.WithPool | library/src/main/java/me/drakeet/multitype/MultiTypeAdapter.java:53-55 | the given items, delegating to the given pool, no flattening |
| MultiType.MultiTypeAdapter.WithFlatTypeAdapter | library/src/main/java/me/drakeet/multitype/MultiTypeAdapter.java:58-64 | each of the three fields takes its argument and the inflater is unset |
| MultiType.MultiTypeAdapter.Register | library/src/main/java/me/drakeet/multitype/MultiTypeAdapter.java:67-70 | forwards to the delegate: one (class, binder) pair appended, alignment kept |
| MultiType.MultiTypeAdapter.RegisterAll | library/src/main/java/me/drakeet/multitype/MultiTypeAdapter.java:73-77 | for a pool other than the delegate, or the delegate itself while empty: the delegate's classes and binders become the old ones followed by the pool's, in order, still aligned; the pool is unchanged |
| MultiType.MultiTypeAdapter.SetItems | library/src/main/java/me/drakeet/multitype/MultiTypeAdapter.java:91-93 | replaces the items and nothing else; no refresh |
| MultiType.MultiTypeAdapter.SetTypePool | library/src/main/java/me/drakeet/multitype/MultiTypeAdapter.java:101-103 | replaces the delegate and nothing else |
| MultiType.MultiTypeAdapter.SetFlatTypeAdapter | library/src/main/java/me/drakeet/multitype/MultiTypeAdapter.java:115-117 | installs the flattening strategy and nothing else |
| MultiType.MultiTypeAdapter.ItemViewType | library/src/main/java/me/drakeet/multitype/MultiTypeAdapter.java:120-125 | for items set and a position in range: a registry index whose class is the item's flattened class, or `BinderNotFoundException` of that class exactly when it is not registered |
| MultiType.MultiTypeAdapter.OnCreateViewHolder | library/src/main/java/me/drakeet/multitype/MultiTypeAdapter.java:128-137 | the inflater is created from the parent's context only when unset and kept otherwise; the binder at the index points back at this adapter; creation is handed to that binder with the inflater and parent; nothing else changes |
| MultiType.MultiTypeAdapter.OnBindViewHolder | library/src/main/java/me/drakeet/multitype/MultiTypeAdapter.java:144-150 | the binder is looked up again by the item's flattened class; it receives the holder, the flattened item and the payloads unchanged; no binder exactly when that class is not registered |
| MultiType.MultiTypeAdapter.ItemCount | library/src/main/java/me/drakeet/multitype/MultiTypeAdapter.java:153-156 | 0 while no list is set, otherwise the list's size; it has no precondition |
| MultiType.MultiTypeAdapter.IndexOf | library/src/main/java/me/drakeet/multitype/MultiTypeAdapter.java:159-166 | the delegate's index when it is found, otherwise `BinderNotFoundException(clazz)`; never a negative index |
| MultiType.MultiTypeAdapter.FlattenClass | library/src/main/java/me/drakeet/multitype/MultiTypeAdapter.java:169-175 | the runtime class without a flattening strategy, the strategy's `onFlattenClass` with one |
| MultiType.MultiTypeAdapter.FlattenItem | library/src/main/java/me/drakeet/multitype/MultiTypeAdapter.java:178-184 | the item itself without a flattening strategy, the strategy's `onFlattenItem` with one |
| MultiType.MultiTypeAdapter.GetContents | library/src/main/java/me/drakeet/multitype/MultiTypeAdapter.java:187-190 | the delegate's classes, as long as its binder list |
| MultiType.MultiTypeAdapter.GetItemViewBinders | library/src/main/java/me/drakeet/multitype/MultiTypeAdapter.java:193-196 | the delegate's binders, as long as its class list |
| MultiType.MultiTypeAdapter.GetBinderByIndex | library/src/main/java/me/drakeet/multitype/MultiTypeAdapter.java:199-202 | the binder at that position of the binder list, whose class resolves |
| MultiType.MultiTypeAdapter.GetBinderByClass | library/src/main/java/me/drakeet/multitype/MultiTypeAdapter.java:205-208 | found exactly when `indexOf` succeeds, and then the binder at the index `indexOf` returns, registered for exactly that class |
| MultiType.MultiTypeAdapter.GetItems | library/src/main/java/me/drakeet/multitype/MultiTypeAdapter.java:211-212 | the current items, consistent with `getItemCount` |
| MultiType.MultiTypeAdapter.GetTypePool | library/src/main/java/me/drakeet/multitype/MultiTypeAdapter.java:215-217 | the current delegate, which is aligned |
| AdapterProperties.DefaultFlatteningIsIdentity | library/src/main/java/me/drakeet/multitype/MultiTypeAdapter.java:169-184 | without a strategy the view type is the lookup of the item's runtime class, and the bound value is the item itself |
| AdapterProperties.ConstantFlatteningGivesOneViewType | library/src/main/java/me/drakeet/multitype/MultiTypeAdapter.java:120-125 | a strategy mapping every item to one class gives every position the same view type: the lookup of that class |
| AdapterProperties.BindUsesBinderOfViewType | library/src/main/java/me/drakeet/multitype/MultiTypeAdapter.java:120-150 | with an unchanged registry, binding succeeds exactly when the view type resolves, and then uses the binder registered at that view type |
| AdapterProperties.SameFlattenedClassSameViewType | library/src/main/java/me/drakeet/multitype/MultiTypeAdapter.java:120-125 | positions whose items flatten to the same class get the same view type |

## Left out

- MultiType.TypePool.Register: the pool is modelled as always appending, so duplicates are kept; how the default `MultiTypePool` handles a class that is already registered is not part of this model.
- MultiType.TypePool.IndexOf: does not say which of several registrations of one class is found, because the default `MultiTypePool` lookup is not part of this model; only the abstract pool contract is stated.
- MultiType.TypePool.GetBinderByClass, MultiType.MultiTypeAdapter.GetBinderByClass, MultiType.MultiTypeAdapter.OnBindViewHolder: when the delegate has no binder for the class the result is None. What the default pool throws in that case is not part of this model.
- AdapterProperties.BindUsesBinderOfViewType: rests on the model's assumption that the pool's `getBinderByClass` returns the binder at the position its own `indexOf` reports. For a class registered more than once, whether the default `MultiTypePool` keeps these two in agreement is not part of this model.
- MultiType.MultiTypeAdapter.RegisterAll: requires the pool to be other than the delegate unless the delegate is empty. With a non-empty delegate as the pool the loop re-reads the size of the list it appends to and does not end; with an empty one it runs zero times. `MultiTypeAdapter implements TypePool` (line 30) is not modelled; the adapter is not a pool. Passing an adapter as a pool to `registerAll`, `setTypePool` or a constructor is modelled by passing its delegate, and `pool != delegate` stands for "the pool's lists are not the delegate's own". So `registerAll(this)`, and `registerAll` with another adapter that shares the delegate, are admitted only while the delegate is empty: with a non-empty delegate both re-read its growing list through the forwarding `getContents` (lines 188-190) and do not end.
- MultiType.MultiTypeAdapter.FlattenClass: items are never null in the model. In Java a null element makes `item.getClass()` (line 174) throw a NullPointerException when no flattening strategy is set.
- MultiType.MultiTypeAdapter.WithCapacity: takes the capacity as a `nat`. What a negative capacity does happens inside `MultiTypePool`, which is not part of this model.
- The two-argument `onBindViewHolder` (line 141) is an empty method and is not modelled.
- Android machinery is outside the model: `LayoutInflater.from`, the binders' own `onCreateViewHolder` and `onBindViewHolder`, the view holders they make, the RecyclerView superclass and its `notifyDataSetChanged`. The first becomes the value `InflaterFrom(context)`, the binder calls become returned requests.
- Reflection and generics: `item.getClass()` becomes the item's `runtimeClass` field, and the unchecked cast in `getBinderByClass` disappears.
- `getContents()` and `getItemViewBinders()` return the pool's live lists in Java; the model returns their values, so changes made through a returned list are not modelled.
- The sample activity `NormalActivity.kt` is UI wiring and is not modelled.
- Thread safety: the code has no locking and the model is single-threaded.
- Preconditions stand for the source's programming errors: `items` being set comes from the Java `assert` statements (lines 122, 146); a position in range stands for `items.get(position)` (lines 123, 147) throwing `IndexOutOfBoundsException`, and an index in range for `getBinderByIndex`, where `List.get` would throw the same.

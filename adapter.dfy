/** The type-to-binder dispatch of `MultiTypeAdapter`: a registry of
    (class, binder) pairs, the optional flattening indirection, and the
    per-position resolution the list widget drives. */
module MultiType {
  import opened Values

  /** Position of a tag equal to `c` in `tags`, or -1 when there is none.
      The scan reports the first such position, but only the above is
      promised: which of several equal tags is reported is not. */
  function IndexOfTag(tags: seq<ClassTag>, c: ClassTag): (r: int)
    ensures -1 <= r < |tags|
    ensures r >= 0 ==> tags[r] == c
    ensures r < 0 <==> c !in tags
  {
    if |tags| == 0 then -1
    else if tags[0] == c then 0
    else
      var k := IndexOfTag(tags[1..], c);
      if k < 0 then -1 else k + 1
  }

  /** `ItemViewBinder`: the handler for one class. Only the back-reference the
      adapter assigns is state here; creating and filling views is the
      binder's own, external code. */
  class ItemViewBinder {
    var adapter: MultiTypeAdapter?

    constructor ()
      ensures adapter == null
    {
      adapter := null;
    }
  }

  /** A call `binder.onCreateViewHolder(inflater, parent)` the adapter hands
      over to a binder; the view holder it yields is the binder's business. */
  datatype CreateRequest = CreateRequest(binder: ItemViewBinder, inflater: LayoutInflater, parent: ViewGroup)

  /** A call `binder.onBindViewHolder(holder, item, payloads)` the adapter
      hands over to a binder. */
  datatype BindRequest = BindRequest(binder: ItemViewBinder, holder: ViewHolder, item: Item, payloads: seq<Payload>)

  /** The `TypePool` the adapter delegates to: two index-aligned lists, the
      registered classes and their binders. */
  class TypePool {
    var contents: seq<ClassTag>
    var binders: seq<ItemViewBinder>

    /** The class at position i is served by the binder at position i. */
    ghost predicate Valid()
      reads this
    {
      |contents| == |binders|
    }

    /** `new MultiTypePool()`: an empty pool. */
    constructor ()
      ensures Valid() && contents == [] && binders == []
    {
      contents, binders := [], [];
    }

    /** `register(clazz, binder)`: appends one entry; duplicates are kept. */
    method Register(clazz: ClassTag, binder: ItemViewBinder)
      requires Valid()
      modifies this
      ensures Valid()
      ensures contents == old(contents) + [clazz]
      ensures binders == old(binders) + [binder]
    {
      contents := contents + [clazz];
      binders := binders + [binder];
    }

    /** `indexOf(clazz)`: a position whose class is exactly `clazz`, or -1
        exactly when `clazz` is not registered. */
    function IndexOf(clazz: ClassTag): (r: int)
      reads this
      requires Valid()
      ensures -1 <= r < |binders|
      ensures r >= 0 ==> contents[r] == clazz
      ensures r < 0 <==> clazz !in contents
    {
      IndexOfTag(contents, clazz)
    }

    /** `getBinderByIndex(index)`: the binder registered together with the
        class at `index`. */
    function GetBinderByIndex(index: int): (r: ItemViewBinder)
      reads this
      requires Valid() && 0 <= index < |binders|
      ensures r == binders[index]
      ensures IndexOf(contents[index]) >= 0
    {
      binders[index]
    }

    /** `getBinderByClass(clazz)`: a binder registered for exactly `clazz`,
        namely the one at the position `IndexOf(clazz)` reports; None when
        `clazz` is not registered. */
    function GetBinderByClass(clazz: ClassTag): (r: Option<ItemViewBinder>)
      reads this
      requires Valid()
      ensures r.Some? <==> clazz in contents
      ensures r.Some? ==> exists k :: 0 <= k < |contents| && contents[k] == clazz && binders[k] == r.value
      ensures r.Some? ==> r.value == binders[IndexOf(clazz)]
    {
      var index := IndexOf(clazz);
      if index >= 0 then Some(binders[index]) else None
    }
  }

  /** `MultiTypeAdapter`: the list widget's adapter. It owns the item list,
      the pool it delegates registration and lookup to, the optional
      flattening strategy, and a lazily created inflater. */
  class MultiTypeAdapter {
    var items: Option<seq<Item>>
    var delegate: TypePool
    var inflater: Option<LayoutInflater>
    var providedFlatTypeAdapter: Option<FlatTypeAdapter>

    ghost predicate Valid()
      reads this, delegate
    {
      delegate.Valid()
    }

    /** `MultiTypeAdapter()`: no items, a fresh empty pool, no flattening. */
    constructor ()
      ensures Valid() && fresh(delegate)
      ensures items == None && delegate.contents == [] && delegate.binders == []
      ensures inflater == None && providedFlatTypeAdapter == None
    {
      items := None;
      delegate := new TypePool();
      inflater := None;
      providedFlatTypeAdapter := None;
    }

    /** `MultiTypeAdapter(items)`. */
    constructor WithItems(items: Option<seq<Item>>)
      ensures Valid() && fresh(delegate)
      ensures this.items == items && delegate.contents == [] && delegate.binders == []
      ensures inflater == None && providedFlatTypeAdapter == None
    {
      this.items := items;
      delegate := new TypePool();
      inflater := None;
      providedFlatTypeAdapter := None;
    }

    /** `MultiTypeAdapter(items, initialCapacity)`: the capacity only sizes
        the new pool's storage, so the pool starts empty all the same. */
    constructor WithCapacity(items: Option<seq<Item>>, initialCapacity: nat)
      ensures Valid() && fresh(delegate)
      ensures this.items == items && delegate.contents == [] && delegate.binders == []
      ensures inflater == None && providedFlatTypeAdapter == None
    {
      this.items := items;
      delegate := new TypePool();
      inflater := None;
      providedFlatTypeAdapter := None;
    }

    /** `MultiTypeAdapter(items, pool)`: delegates to the caller's pool. */
    constructor WithPool(items: Option<seq<Item>>, pool: TypePool)
      requires pool.Valid()
      ensures Valid()
      ensures this.items == items && delegate == pool
      ensures inflater == None && providedFlatTypeAdapter == None
    {
      this.items := items;
      delegate := pool;
      inflater := None;
      providedFlatTypeAdapter := None;
    }

    /** `MultiTypeAdapter(items, delegate, providedFlatTypeAdapter)`. */
    constructor WithFlatTypeAdapter(items: Option<seq<Item>>, delegate: TypePool, providedFlatTypeAdapter: Option<FlatTypeAdapter>)
      requires delegate.Valid()
      ensures Valid()
      ensures this.items == items && this.delegate == delegate
      ensures inflater == None && this.providedFlatTypeAdapter == providedFlatTypeAdapter
    {
      this.items := items;
      this.delegate := delegate;
      inflater := None;
      this.providedFlatTypeAdapter := providedFlatTypeAdapter;
    }

    /** `register(clazz, binder)`: forwarded to the delegate. */
    method Register(clazz: ClassTag, binder: ItemViewBinder)
      requires Valid()
      modifies delegate
      ensures Valid()
      ensures delegate.contents == old(delegate.contents) + [clazz]
      ensures delegate.binders == old(delegate.binders) + [binder]
    {
      delegate.Register(clazz, binder);
    }

    /** `registerAll(pool)`: appends every entry of `pool`, in order, after
        the delegate's own. `pool` may be the delegate itself only while it is
        empty: otherwise the loop re-reads the size of the list it is growing
        and would not end. */
    method RegisterAll(pool: TypePool)
      requires Valid() && pool.Valid()
      requires pool != delegate || pool.contents == []
      modifies delegate
      ensures Valid()
      ensures delegate.contents == old(delegate.contents) + pool.contents
      ensures delegate.binders == old(delegate.binders) + pool.binders
      ensures unchanged(pool)
    {
      var i := 0;
      while i < |pool.contents|
        invariant 0 <= i <= |pool.contents|
        invariant delegate.Valid()
        invariant delegate.contents == old(delegate.contents) + pool.contents[..i]
        invariant delegate.binders == old(delegate.binders) + pool.binders[..i]
        invariant pool == delegate ==> i == 0 && unchanged(pool)
      {
        delegate.Register(pool.contents[i], pool.binders[i]);
        i := i + 1;
      }
    }

    /** `setItems(items)`: replaces the list; the views are not refreshed. */
    method SetItems(items: Option<seq<Item>>)
      requires Valid()
      modifies this`items
      ensures Valid() && this.items == items
      ensures delegate == old(delegate) && inflater == old(inflater)
      ensures providedFlatTypeAdapter == old(providedFlatTypeAdapter)
    {
      this.items := items;
    }

    /** `setTypePool(typePool)`: replaces the delegate. */
    method SetTypePool(typePool: TypePool)
      requires typePool.Valid()
      modifies this`delegate
      ensures Valid() && delegate == typePool
      ensures items == old(items) && inflater == old(inflater)
      ensures providedFlatTypeAdapter == old(providedFlatTypeAdapter)
    {
      delegate := typePool;
    }

    /** `setFlatTypeAdapter(flatTypeAdapter)`: installs a flattening strategy. */
    method SetFlatTypeAdapter(flatTypeAdapter: FlatTypeAdapter)
      requires Valid()
      modifies this`providedFlatTypeAdapter
      ensures Valid() && providedFlatTypeAdapter == Some(flatTypeAdapter)
      ensures items == old(items) && delegate == old(delegate) && inflater == old(inflater)
    {
      providedFlatTypeAdapter := Some(flatTypeAdapter);
    }

    /** `getItemCount()`: never fails; zero while no list is set. */
    function ItemCount(): (r: nat)
      reads this
      ensures items.None? ==> r == 0
      ensures items.Some? ==> r == |items.value|
    {
      if items.None? then 0 else |items.value|
    }

    /** `indexOf(clazz)`: the delegate's index when it has one, otherwise
        `BinderNotFoundException(clazz)`; never a negative index. */
    function IndexOf(clazz: ClassTag): (r: Result<nat, BinderNotFoundException>)
      reads this, delegate
      requires Valid()
      ensures r.Ok? <==> clazz in delegate.contents
      ensures r.Ok? ==> r.value < |delegate.contents| && delegate.contents[r.value] == clazz
      ensures r.Err? ==> r.error == BinderNotFoundException(clazz)
    {
      var index := delegate.IndexOf(clazz);
      if index >= 0 then Ok(index) else Err(BinderNotFoundException(clazz))
    }

    /** `flattenClass(item)`: the class used to look the item up. */
    function FlattenClass(item: Item): (r: ClassTag)
      reads this
      ensures providedFlatTypeAdapter.None? ==> r == item.runtimeClass
      ensures providedFlatTypeAdapter.Some? ==> r == providedFlatTypeAdapter.value.onFlattenClass(item)
    {
      match providedFlatTypeAdapter
      case Some(flat) => flat.onFlattenClass(item)
      case None => item.runtimeClass
    }

    /** `flattenItem(item)`: the value handed to the binder. */
    function FlattenItem(item: Item): (r: Item)
      reads this
      ensures providedFlatTypeAdapter.None? ==> r == item
      ensures providedFlatTypeAdapter.Some? ==> r == providedFlatTypeAdapter.value.onFlattenItem(item)
    {
      match providedFlatTypeAdapter
      case Some(flat) => flat.onFlattenItem(item)
      case None => item
    }

    /** `getItemViewType(position)`: the registry index of the item's
        flattened class, or `BinderNotFoundException` for that class. */
    function ItemViewType(position: int): (r: Result<nat, BinderNotFoundException>)
      reads this, delegate
      requires Valid() && items.Some? && 0 <= position < ItemCount()
      ensures r.Ok? <==> FlattenClass(items.value[position]) in delegate.contents
      ensures r.Ok? ==> r.value < |delegate.contents| && delegate.contents[r.value] == FlattenClass(items.value[position])
      ensures r.Err? ==> r.error == BinderNotFoundException(FlattenClass(items.value[position]))
    {
      var item := items.value[position];
      IndexOf(FlattenClass(item))
    }

    /** `onCreateViewHolder(parent, indexViewType)`: creates the inflater on
        first use only, points the binder at `indexViewType` back at this
        adapter, and hands creation to that binder. */
    method OnCreateViewHolder(parent: ViewGroup, indexViewType: int) returns (request: CreateRequest)
      requires Valid() && 0 <= indexViewType < |delegate.binders|
      modifies this`inflater, delegate.binders[indexViewType]
      ensures Valid()
      ensures old(inflater).None? ==> inflater == Some(InflaterFrom(parent.context))
      ensures old(inflater).Some? ==> inflater == old(inflater)
      ensures delegate.binders[indexViewType].adapter == this
      ensures request == CreateRequest(delegate.binders[indexViewType], inflater.value, parent)
      ensures items == old(items) && delegate == old(delegate)
      ensures providedFlatTypeAdapter == old(providedFlatTypeAdapter)
    {
      if inflater.None? {
        inflater := Some(InflaterFrom(parent.context));
      }
      var binder := GetBinderByIndex(indexViewType);
      binder.adapter := this;
      request := CreateRequest(binder, inflater.value, parent);
    }

    /** `onBindViewHolder(holder, position, payloads)`: looks the binder up
        again by the item's flattened class (not by a remembered view type)
        and hands it the flattened item and the payloads unchanged. None when
        the delegate has no binder for that class. */
    function OnBindViewHolder(holder: ViewHolder, position: int, payloads: seq<Payload>): (r: Option<BindRequest>)
      reads this, delegate
      requires Valid() && items.Some? && 0 <= position < ItemCount()
      ensures r.Some? <==> FlattenClass(items.value[position]) in delegate.contents
      ensures r.Some? ==> r.value.holder == holder && r.value.payloads == payloads
      ensures r.Some? ==> r.value.item == FlattenItem(items.value[position])
      ensures r.Some? ==> exists k :: 0 <= k < |delegate.contents| && delegate.contents[k] == FlattenClass(items.value[position]) && delegate.binders[k] == r.value.binder
    {
      var item := items.value[position];
      match GetBinderByClass(FlattenClass(item))
      case Some(binder) => Some(BindRequest(binder, holder, FlattenItem(item), payloads))
      case None => None
    }

    /** `getContents()`: the delegate's classes, aligned with its binders. */
    function GetContents(): (r: seq<ClassTag>)
      reads this, delegate
      requires Valid()
      ensures r == delegate.contents && |r| == |delegate.binders|
    {
      delegate.contents
    }

    /** `getItemViewBinders()`: the delegate's binders, aligned with its classes. */
    function GetItemViewBinders(): (r: seq<ItemViewBinder>)
      reads this, delegate
      requires Valid()
      ensures r == delegate.binders && |r| == |delegate.contents|
    {
      delegate.binders
    }

    /** `getBinderByIndex(index)`: forwarded to the delegate. */
    function GetBinderByIndex(index: int): (r: ItemViewBinder)
      reads this, delegate
      requires Valid() && 0 <= index < |delegate.binders|
      ensures r == GetItemViewBinders()[index]
      ensures IndexOf(GetContents()[index]).Ok?
    {
      delegate.GetBinderByIndex(index)
    }

    /** `getBinderByClass(clazz)`: forwarded to the delegate. */
    function GetBinderByClass(clazz: ClassTag): (r: Option<ItemViewBinder>)
      reads this, delegate
      requires Valid()
      ensures r.Some? <==> IndexOf(clazz).Ok?
      ensures r.Some? ==> exists k :: 0 <= k < |delegate.contents| && delegate.contents[k] == clazz && delegate.binders[k] == r.value
      ensures r.Some? ==> r.value == delegate.binders[IndexOf(clazz).value]
    {
      delegate.GetBinderByClass(clazz)
    }

    /** `getItems()`. */
    function GetItems(): (r: Option<seq<Item>>)
      reads this
      ensures r == items
      ensures ItemCount() == if r.Some? then |r.value| else 0
    {
      items
    }

    /** `getTypePool()`. */
    function GetTypePool(): (r: TypePool)
      reads this, delegate
      requires Valid()
      ensures r == delegate && r.Valid()
    {
      delegate
    }
  }
}

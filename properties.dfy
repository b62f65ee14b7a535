/** Properties that relate several operations of the adapter, and a client
    that exercises the registry on a small example. */
module AdapterProperties {
  import opened Values
  import opened MultiType

  /** Without a flattening strategy the view type is decided by the item's
      own runtime class, and the binder receives the item itself. */
  lemma DefaultFlatteningIsIdentity(a: MultiTypeAdapter, position: int)
    requires a.Valid() && a.items.Some? && 0 <= position < a.ItemCount()
    requires a.providedFlatTypeAdapter.None?
    ensures a.ItemViewType(position) == a.IndexOf(a.items.value[position].runtimeClass)
    ensures a.FlattenItem(a.items.value[position]) == a.items.value[position]
  {
  }

  /** A strategy that sends every item to one class gives every position the
      same view type, whatever the items' runtime classes are. */
  lemma ConstantFlatteningGivesOneViewType(a: MultiTypeAdapter, tag: ClassTag, p: int, q: int)
    requires a.Valid() && a.items.Some?
    requires 0 <= p < a.ItemCount() && 0 <= q < a.ItemCount()
    requires a.providedFlatTypeAdapter.Some?
    requires forall item :: a.providedFlatTypeAdapter.value.onFlattenClass(item) == tag
    ensures a.ItemViewType(p) == a.ItemViewType(q) == a.IndexOf(tag)
  {
  }

  /** Binding agrees with the view type the host was given for the same
      position: it succeeds exactly when the view type resolved, and then uses
      the binder registered at that view type (the pool's `GetBinderByClass`
      promises the binder at its own `IndexOf`). */
  lemma BindUsesBinderOfViewType(a: MultiTypeAdapter, holder: ViewHolder, position: int, payloads: seq<Payload>)
    requires a.Valid() && a.items.Some? && 0 <= position < a.ItemCount()
    ensures a.OnBindViewHolder(holder, position, payloads).Some? <==> a.ItemViewType(position).Ok?
    ensures a.ItemViewType(position).Ok? ==>
              a.OnBindViewHolder(holder, position, payloads).value.binder == a.delegate.binders[a.ItemViewType(position).value]
  {
  }

  /** Two positions holding items with the same flattened class get the same
      view type. */
  lemma SameFlattenedClassSameViewType(a: MultiTypeAdapter, p: int, q: int)
    requires a.Valid() && a.items.Some?
    requires 0 <= p < a.ItemCount() && 0 <= q < a.ItemCount()
    requires a.FlattenClass(a.items.value[p]) == a.FlattenClass(a.items.value[q])
    ensures a.ItemViewType(p) == a.ItemViewType(q)
  {
  }

  /** A small example. Cat and Dog registered, Bird not: items [cat, dog, cat] resolve to view
      types 0, 1, 0; a Bird fails with `BinderNotFoundException(Bird)`; a list
      that is absent or empty has no items. */
  method CatsAndDogs()
  {
    var cat, dog, bird := ClassTag("Cat"), ClassTag("Dog"), ClassTag("Bird");
    var a := new MultiTypeAdapter();
    assert a.ItemCount() == 0;

    var catBinder := new ItemViewBinder();
    var dogBinder := new ItemViewBinder();
    a.Register(cat, catBinder);
    a.Register(dog, dogBinder);
    a.SetItems(Some([Item(cat, 1), Item(dog, 2), Item(cat, 3)]));
    assert a.ItemCount() == 3;
    assert a.ItemViewType(0) == Ok(0);
    assert a.ItemViewType(1) == Ok(1);
    assert a.ItemViewType(2) == Ok(0);

    a.SetItems(Some([Item(bird, 4)]));
    assert a.ItemViewType(0) == Err(BinderNotFoundException(bird));

    a.SetItems(Some([]));
    assert a.ItemCount() == 0;

    a.SetFlatTypeAdapter(FlatTypeAdapter(_ => dog, item => item));
    a.SetItems(Some([Item(cat, 1), Item(bird, 4)]));
    assert a.ItemViewType(0) == a.ItemViewType(1) == Ok(1);
  }
}

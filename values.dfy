/** Values the type-to-binder dispatch works on: type tags, items, the optional
    flattening strategy, the error it raises, and the opaque Android values it
    only passes through. */
module Values {

  datatype Option<+T> = None | Some(value: T)

  datatype Result<+T, +E> = Ok(value: T) | Err(error: E)

  /** A runtime class (`Class<?>`): an opaque tag compared by exact equality.
      A tag for a supertype does not match a tag for a subtype. */
  datatype ClassTag = ClassTag(name: string)

  /** An element of the adapter's item list. `runtimeClass` stands for
      `item.getClass()`; `identity` distinguishes objects of the same class. */
  datatype Item = Item(runtimeClass: ClassTag, identity: nat)

  /** `FlatTypeAdapter`: the pair of pure callbacks that redirect an item to an
      effective class for lookup and an effective value for binding. */
  datatype FlatTypeAdapter = FlatTypeAdapter(onFlattenClass: Item -> ClassTag, onFlattenItem: Item -> Item)

  /** `BinderNotFoundException(clazz)`: no binder is registered for `clazz`. */
  datatype BinderNotFoundException = BinderNotFoundException(clazz: ClassTag)

  /** Android values the adapter only hands on. */
  datatype Context = Context(id: nat)
  datatype ViewGroup = ViewGroup(context: Context)
  /** The inflater `LayoutInflater.from(context)` returns. */
  datatype LayoutInflater = InflaterFrom(context: Context)
  datatype ViewHolder = ViewHolder(id: nat)
  /** One partial-update token of `onBindViewHolder`'s payload list. */
  datatype Payload = Payload(id: nat)

}

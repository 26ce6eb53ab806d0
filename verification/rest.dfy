/**
 Attribute extraction and store construction (apiserver/rest/rest.go).
 */
module Rest {
  import opened Wrappers
  import opened Objects
  import opened Strategy

  /** Labels and selectable fields of an object, as used by storage predicates. */
  datatype Attrs = Attrs(labels: map<string, string>, fields: map<string, string>)

  /**
   The generic library's field set for object metadata: the name, plus the namespace
   when the kind has a namespace field.
   */
  function ObjectMetaFieldsSet(meta: ObjectMeta, hasNamespaceField: bool): map<string, string> {
    if hasNamespaceField then
      map["metadata.name" := meta.name, "metadata.namespace" := meta.namespace]
    else
      map["metadata.name" := meta.name]
  }

  /** Selectable fields; the namespace field is always included. */
  function SelectableFields(meta: ObjectMeta): (r: map<string, string>)
    ensures "metadata.name" in r && r["metadata.name"] == meta.name
    ensures "metadata.namespace" in r && r["metadata.namespace"] == meta.namespace
  {
    ObjectMetaFieldsSet(meta, true)
  }

  /** Fails exactly on values whose type lacks the metadata accessor. */
  function GetAttrs(obj: Object): (r: Result<Attrs, string>)
    ensures r.Failure? <==> !IsObject(obj.kind)
    ensures r.Success? ==> r.value.labels == obj.data.meta.labels
    ensures r.Success? ==> r.value.fields == SelectableFields(obj.data.meta)
  {
    if !IsObject(obj.kind) then
      Failure("given object of type " + obj.kind.name + " does not have metadata")
    else
      Success(Attrs(obj.data.meta.labels, SelectableFields(obj.data.meta)))
  }

  /** Attribute-extraction functions a store can be given; only GetAttrs exists here. */
  datatype AttrFunc = GetAttrsFn

  function ApplyAttrFunc(f: AttrFunc, obj: Object): Result<Attrs, string> {
    match f
    case GetAttrsFn => GetAttrs(obj)
  }

  /** The predicate factory of a store: the method value `strategy.Match`. */
  datatype Matcher = MatchOf(strategy: DefaultStrategy)

  /** The zero-value factories of a type: the method values `obj.New` and `obj.NewList`. */
  datatype Factory = NewFn(kindName: string) | NewListFn(kindName: string)

  /** Backend configuration resolved for one resource (opaque). */
  datatype RESTOptions = RESTOptions(resourcePrefix: string)

  /** The external resolver of backend configuration; it may fail. */
  datatype RESTOptionsGetter = RESTOptionsGetter(getRESTOptions: GroupResource -> Result<RESTOptions, string>)

  datatype StoreOptions = StoreOptions(restOptions: RESTOptionsGetter, attrFunc: AttrFunc)

  /** The fields of the generic registry store that this core sets. */
  datatype Store = Store(
    newFunc: Factory,
    newListFunc: Factory,
    predicateFunc: Matcher,
    defaultQualifiedResource: GroupResource,
    singularQualifiedResource: GroupResource,
    tableConvertor: DefaultStrategy,
    createStrategy: DefaultStrategy,
    updateStrategy: UpdateStrategy,
    deleteStrategy: DefaultStrategy,
    completedWith: Option<StoreOptions>)

  /**
   The library's completion step, as far as this core depends on it: it resolves the
   backend options for the store's resource and fails when that fails.
   */
  function CompleteWithOptions(store: Store, options: StoreOptions): (r: Result<Store, string>)
    ensures r.Failure? <==> options.restOptions.getRESTOptions(store.defaultQualifiedResource).Failure?
    ensures r.Failure? ==> r.error == options.restOptions.getRESTOptions(store.defaultQualifiedResource).error
    ensures r.Success? ==> r.value == store.(completedWith := Some(options))
  {
    match options.restOptions.getRESTOptions(store.defaultQualifiedResource)
    case Failure(e) => Failure(e)
    case Success(_) => Success(store.(completedWith := Some(options)))
  }

  /** True when every policy slot of `store` is `strategy`, as NewStore wires it. */
  ghost predicate WiredTo(store: Store, single: Factory, list: Factory, gr: GroupResource, strategy: DefaultStrategy) {
    && store.newFunc == single
    && store.newListFunc == list
    && store.predicateFunc == MatchOf(strategy)
    && store.defaultQualifiedResource == gr
    && store.singularQualifiedResource == gr
    && store.tableConvertor == strategy
    && store.createStrategy == strategy
    && store.updateStrategy == DefaultUpdate(strategy)
    && store.deleteStrategy == strategy
  }

  /**
   A store whose create, update and delete policies and table convertor are all the
   given strategy; it fails only when completion against the options resolver fails.
   */
  function NewStore(single: Factory, list: Factory, gr: GroupResource, strategy: DefaultStrategy,
                    optsGetter: RESTOptionsGetter): (r: Result<Store, string>)
    ensures r.Failure? <==> optsGetter.getRESTOptions(gr).Failure?
    ensures r.Failure? ==> r.error == optsGetter.getRESTOptions(gr).error
    ensures r.Success? ==> WiredTo(r.value, single, list, gr, strategy)
    ensures r.Success? ==> r.value.completedWith == Some(StoreOptions(optsGetter, GetAttrsFn))
  {
    var store := Store(
      newFunc := single,
      newListFunc := list,
      predicateFunc := MatchOf(strategy),
      defaultQualifiedResource := gr,
      singularQualifiedResource := gr,
      tableConvertor := strategy,
      createStrategy := strategy,
      updateStrategy := DefaultUpdate(strategy),
      deleteStrategy := strategy,
      completedWith := None);
    CompleteWithOptions(store, StoreOptions(optsGetter, GetAttrsFn))
  }

  /** A completed store extracts attributes with GetAttrs, so it rejects objects without metadata. */
  lemma StoreExtractsWithGetAttrs(single: Factory, list: Factory, gr: GroupResource,
                                  strategy: DefaultStrategy, optsGetter: RESTOptionsGetter, obj: Object)
    requires NewStore(single, list, gr, strategy, optsGetter).Success?
    ensures var opts := NewStore(single, list, gr, strategy, optsGetter).value.completedWith.value;
            && ApplyAttrFunc(opts.attrFunc, obj) == GetAttrs(obj)
            && (ApplyAttrFunc(opts.attrFunc, obj).Failure? <==> !IsObject(obj.kind))
  {
  }
}

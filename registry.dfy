/** The transaction registry: the execution context's mapping from trace id
    to transaction, and the rule that resolves the "current" transaction. */
module Registry {
  import opened Values
  import opened Transactions

  /** What the tracing collaborator reports about the active span: whether
      it is sampled, and its trace id in canonical text form. */
  datatype SpanContext = SpanContext(sampled: bool, traceId: TraceIdText)

  /** What the collaborators answer during one registry call: the active
      span, the configured service name, and the id the trace-id generator
      would hand out next. */
  datatype Environment = Environment(span: SpanContext, service: string, freshId: TraceIdText)

  /** The path `get_transaction` takes. */
  datatype Resolution = LookUp(key: string) | CreateNew | NotFound

  /** `get_transaction`'s branch selection: a sampled span first, then a
      truthy explicit `traceId`, then creation when `isCreate`. */
  function Resolve(span: SpanContext, traceId: Option<string>, isCreate: bool): (r: Resolution)
    ensures r.LookUp? <==> span.sampled || Truthy(traceId)
    ensures r.LookUp? ==> r.key != "" && (r.key == span.traceId || Some(r.key) == traceId)
    ensures r == CreateNew <==> !span.sampled && !Truthy(traceId) && isCreate
    ensures r == NotFound <==> !span.sampled && !Truthy(traceId) && !isCreate
  {
    if span.sampled then LookUp(span.traceId)
    else if Truthy(traceId) then LookUp(traceId.value)
    else if isCreate then CreateNew
    else NotFound
  }

  /** A sampled span decides alone: the explicit id and `isCreate` are ignored
      and nothing is created. */
  lemma SampledSpanTakesPrecedence(span: SpanContext, t1: Option<string>, c1: bool, t2: Option<string>, c2: bool)
    requires span.sampled
    ensures Resolve(span, t1, c1) == Resolve(span, t2, c2) == LookUp(span.traceId)
  {
  }

  /** Without a sampled span, a truthy explicit id is looked up and never
      leads to creation, whatever `isCreate` says. */
  lemma ExplicitIdNeverCreates(span: SpanContext, traceId: Option<string>, c1: bool, c2: bool)
    requires !span.sampled && Truthy(traceId)
    ensures Resolve(span, traceId, c1) == Resolve(span, traceId, c2) == LookUp(traceId.value)
  {
  }

  /** Creation happens exactly when there is neither a sampled span nor a
      truthy id and `isCreate` holds; "not found" exactly when `isCreate` is
      false instead. */
  lemma CreationIsTheLastResort(span: SpanContext, traceId: Option<string>, isCreate: bool)
    ensures Resolve(span, traceId, isCreate) == CreateNew <==> !span.sampled && !Truthy(traceId) && isCreate
    ensures Resolve(span, traceId, isCreate) == NotFound <==> !span.sampled && !Truthy(traceId) && !isCreate
  {
  }

  /** `getattr(LOCAL_STORAGE, key, None)`. */
  function Find(entries: map<string, Transaction>, key: string): (t: Transaction?)
    ensures t != null <==> key in entries
    ensures t != null ==> t == entries[key]
  {
    if key in entries then entries[key] else null
  }

  /** The execution context's storage (`LOCAL_STORAGE`). */
  class LocalStorage {
    var entries: map<string, Transaction>

    /** Every transaction is stored under its own id. */
    ghost predicate Valid()
      reads this
    {
      forall key :: key in entries ==> entries[key].id == key
    }

    constructor ()
      ensures Valid() && entries == map[]
    {
      entries := map[];
    }

    /** Builds a transaction and stores it under its id, replacing whatever
        was stored there; the new object is returned. */
    method CreateTransaction(resource: Option<string>, verb: Option<string>, traceId: Option<string>,
                             meta: CallerMeta?, env: Environment) returns (t: Transaction)
      requires Valid()
      modifies this
      ensures Valid() && fresh(t)
      ensures t.id == InitialId(traceId, env.freshId)
      ensures t.service == env.service && t.resource == resource && t.verb == verb
      ensures t.meta == InitialMeta(meta) && t.rollbacks == [] && t.eventHandlers == []
      ensures t.invoked == [] && t.failureLog == [] && t.notified == []
      ensures entries == old(entries)[t.id := t]
      ensures Find(entries, t.id) == t
    {
      t := new Transaction(resource, verb, traceId, meta, env.service, env.freshId);
      entries := entries[t.id := t];
    }

    /** The current transaction as `Resolve` selects it: a lookup that never
        creates, a new blank transaction, or none. */
    method GetTransaction(env: Environment, traceId: Option<string>, isCreate: bool) returns (t: Transaction?)
      requires Valid()
      modifies this
      ensures Valid()
      ensures match Resolve(env.span, traceId, isCreate)
        case LookUp(key) => entries == old(entries) && t == Find(entries, key)
        case CreateNew =>
          && t != null && fresh(t) && t.id == env.freshId && t.service == env.service
          && t.resource == None && t.verb == None && t.meta == map[]
          && t.rollbacks == [] && t.eventHandlers == []
          && t.invoked == [] && t.failureLog == [] && t.notified == []
          && entries == old(entries)[t.id := t]
        case NotFound => entries == old(entries) && t == null
    {
      match Resolve(env.span, traceId, isCreate)
      case LookUp(key) =>
        t := Find(entries, key);
      case CreateNew =>
        t := CreateTransaction(None, None, None, null, env);
      case NotFound =>
        t := null;
    }

    /** Removes the current transaction, resolved without creation.  Only a
        sampled span can resolve one, so without it nothing is removed. */
    method DeleteTransaction(env: Environment)
      requires Valid()
      modifies this
      ensures Valid()
      ensures entries == if env.span.sampled then old(entries) - {env.span.traceId} else old(entries)
    {
      var t := GetTransaction(env, None, false);
      if t != null && t.id in entries {
        entries := entries - {t.id};
      }
    }
  }
}

/** Whole-request uses of the transaction and its registry, each stating
    one observable behaviour end to end. */
module Scenarios {
  import opened Values
  import opened Rollbacks
  import opened Events
  import opened Transactions
  import opened Registry

  /** With `meta = {"token": "abc"}` the connection metadata is the token
      followed by a `None` domain id. */
  method ConnectionMetaOfTokenOnly(service: string, freshId: TraceIdText) returns (pairs: seq<(string, Value)>)
    ensures pairs == [("token", Str("abc")), ("domain_id", Nil)]
  {
    var caller := new CallerMeta(map["token" := Str("abc")]);
    var t := new Transaction(None, None, None, caller, service, freshId);
    pairs := t.GetConnectionMeta();
  }

  /** Changing the caller's mapping after construction does not reach the
      transaction's own `meta`. */
  method MetaIsCopiedOnConstruction(service: string, freshId: TraceIdText) returns (seen: Value)
    ensures seen == Int(1)
  {
    var caller := new CallerMeta(map["x" := Int(1)]);
    var t := new Transaction(None, None, None, caller, service, freshId);
    caller.Set("x", Int(2));
    seen := t.GetMeta("x", Nil);
  }

  /** A write through `set_meta` is what `get_meta` reads back. */
  method SetMetaThenGetMeta(service: string, freshId: TraceIdText, key: string, value: Value, default: Value)
    returns (seen: Value)
    ensures seen == value
  {
    var t := new Transaction(None, None, None, null, service, freshId);
    t.SetMeta(key, value);
    seen := t.GetMeta(key, default);
  }

  /** Three actions registered in turn run newest first, each once. */
  method RollbacksRunNewestFirst(service: string, freshId: TraceIdText, f1: Callable, f2: Callable, f3: Callable,
                                 invoke: Rollback -> Outcome)
    returns (ghost calls: seq<Rollback>, propagated: bool)
    requires invoke(Rollback(f1, [], map[])) != RaisesBaseException
    requires invoke(Rollback(f2, [], map[])) != RaisesBaseException
    requires invoke(Rollback(f3, [], map[])) != RaisesBaseException
    ensures calls == [Rollback(f3, [], map[]), Rollback(f2, [], map[]), Rollback(f1, [], map[])]
    ensures !propagated
  {
    var t := new Transaction(None, None, None, null, service, freshId);
    t.AddRollback(f1, [], map[]);
    t.AddRollback(f2, [], map[]);
    t.AddRollback(f3, [], map[]);
    RollbackAttemptsEveryAction(t.rollbacks, invoke);
    propagated := t.ExecuteRollback(invoke);
    calls := t.invoked;
  }

  /** A message that is not a mapping reaches both handlers, in order, as
      the same one-key mapping. */
  method NotifyWrapsPlainMessage(service: string, freshId: TraceIdText, h1: Handler, h2: Handler, text: string,
                                 deliver: (Handler, string, map<string, Value>) -> Delivery)
    returns (ghost sent: seq<Notification>, raised: bool)
    requires deliver(h1, InProgress, map["message" := Str(text)]) == Delivered
    requires deliver(h2, InProgress, map["message" := Str(text)]) == Delivered
    ensures sent == [Notification(h1, "IN_PROGRESS", map["message" := Str(text)]),
                     Notification(h2, "IN_PROGRESS", map["message" := Str(text)])]
    ensures !raised
  {
    var t := new Transaction(None, None, None, null, service, freshId);
    t.eventHandlers := [h1, h2];
    NotifyReachesEveryHandler(t.eventHandlers, map["message" := Str(text)], deliver);
    raised := t.NotifyEvent(OtherMessage(text), deliver);
    sent := t.notified;
  }

  /** A request creates its transaction, records one compensating action
      and rolls back: the action runs exactly once, whatever it raises.  A
      `BaseException` escapes the rollback, so the request never reaches its
      clean-up and the transaction stays registered; otherwise deleting it
      leaves nothing to resolve without creation. */
  method UndoCreateScenario(env: Environment, invoke: Rollback -> Outcome)
    returns (ghost calls: seq<Rollback>, propagated: bool, after: Transaction?)
    ensures calls == [Rollback(Callable("undo_create"), [], map["user_id" := Str("u1")])]
    ensures propagated <==> invoke(calls[0]) == RaisesBaseException
    ensures propagated ==> after != null && after.invoked == calls
    ensures !propagated ==> after == null
  {
    var storage := new LocalStorage();
    var t := storage.CreateTransaction(Some("identity.User"), Some("create"), None, null, env);
    t.SetMeta("domain_id", Str("d1"));
    t.AddRollback(Callable("undo_create"), [], map["user_id" := Str("u1")]);
    propagated := t.ExecuteRollback(invoke);
    calls := t.invoked;
    if propagated {
      after := Find(storage.entries, t.id);
      return;
    }
    storage.DeleteTransaction(env);
    after := storage.GetTransaction(env, None, false);
  }

  /** Created under the active sampled span's id, the transaction is what
      a later lookup without creation returns: the same object. */
  method CreateThenGetUnderSampledSpan(env: Environment) returns (same: bool)
    requires env.span.sampled
    ensures same
  {
    var storage := new LocalStorage();
    var t := storage.CreateTransaction(None, None, Some(env.span.traceId), null, env);
    var u := storage.GetTransaction(env, None, false);
    same := u == t;
  }

  /** Without a sampled span, a lookup without creation finds nothing even
      right after a creation: creation does not consult the span and the
      lookup has no id to go by. */
  method CreateThenGetWithoutSpan(env: Environment) returns (found: Transaction?)
    requires !env.span.sampled
    ensures found == null
  {
    var storage := new LocalStorage();
    var t := storage.CreateTransaction(None, None, None, null, env);
    found := storage.GetTransaction(env, None, false);
  }

  /** Without a sampled span, deletion removes nothing: the entry is still
      found by its explicit id. */
  method DeleteWithoutSpanKeepsEntry(env: Environment, traceId: TraceIdText) returns (kept: bool)
    requires !env.span.sampled
    ensures kept
  {
    var storage := new LocalStorage();
    var t := storage.CreateTransaction(None, None, Some(traceId), null, env);
    storage.DeleteTransaction(env);
    var u := storage.GetTransaction(env, Some(traceId), false);
    kept := u == t;
  }

  /** Without a sampled span or an id, every `get_transaction()` creates and
      stores another transaction. */
  method GetWithoutContextCreatesEachTime(env1: Environment, env2: Environment) returns (distinct: bool, stored: nat)
    requires !env1.span.sampled && !env2.span.sampled && env1.freshId != env2.freshId
    ensures distinct && stored == 2
  {
    var storage := new LocalStorage();
    var t1 := storage.GetTransaction(env1, None, true);
    var t2 := storage.GetTransaction(env2, None, true);
    distinct := t1 != t2;
    stored := |storage.entries|;
  }
}

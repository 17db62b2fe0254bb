/** The per-request transaction object: identity, caller metadata, the
    compensating-action stack and the event-handler list. */
module Transactions {
  import opened Values
  import opened Rollbacks
  import opened Events

  /** A mapping owned by the caller, such as the `meta` argument of the
      constructor; the caller may keep changing it afterwards. */
  class CallerMeta {
    var entries: map<string, Value>

    constructor (entries: map<string, Value>)
      ensures this.entries == entries
    {
      this.entries := entries;
    }

    method Set(key: string, value: Value)
      modifies this
      ensures entries == old(entries)[key := value]
    {
      entries := entries[key := value];
    }
  }

  /** The id `_set_trace_id` chooses: a truthy `traceId` verbatim, else the
      id the generator supplies; never empty either way. */
  function InitialId(traceId: Option<string>, freshId: TraceIdText): (id: TraceIdText)
    ensures Truthy(traceId) ==> id == traceId.value
    ensures !Truthy(traceId) ==> id == freshId
  {
    if Truthy(traceId) then traceId.value else freshId
  }

  /** The mapping `_set_meta` stores: the caller's entries, whether or not
      the mapping was empty (falsy), and the empty mapping for `None`. */
  function InitialMeta(meta: CallerMeta?): (m: map<string, Value>)
    reads meta
    ensures meta == null ==> m == map[]
    ensures meta != null ==> m == meta.entries
  {
    if meta != null && meta.entries != map[] then meta.entries else map[]
  }

  /** The keys `get_connection_meta` forwards, in this order. */
  const ConnectionKeys: seq<string> := ["token", "domain_id"]

  class Transaction {
    const id: TraceIdText
    const service: string
    const resource: Option<string>
    const verb: Option<string>
    var meta: map<string, Value>
    /** Most recently added first: the order of execution. */
    var rollbacks: seq<Rollback>
    /** Populated by callers directly; no method here adds to it. */
    var eventHandlers: seq<Handler>
    /** The rollback calls made so far, in order. */
    ghost var invoked: seq<Rollback>
    /** The rollback failures reported to the log so far, in order. */
    ghost var failureLog: seq<Rollback>
    /** The handler notifications made so far, in order. */
    ghost var notified: seq<Notification>

    /** `service` is the configured service name; `freshId` is what the
        trace-id generator yields, used when `traceId` is falsy. */
    constructor (resource: Option<string>, verb: Option<string>, traceId: Option<string>,
                 meta: CallerMeta?, service: string, freshId: TraceIdText)
      ensures this.id == InitialId(traceId, freshId)
      ensures this.service == service && this.resource == resource && this.verb == verb
      ensures this.meta == InitialMeta(meta)
      ensures rollbacks == [] && eventHandlers == []
      ensures invoked == [] && failureLog == [] && notified == []
    {
      this.service := service;
      this.resource := resource;
      this.verb := verb;
      this.rollbacks := [];
      this.meta := InitialMeta(meta);
      this.id := InitialId(traceId, freshId);
      this.eventHandlers := [];
      invoked, failureLog, notified := [], [], [];
    }

    /** Pushes a compensating action on the front of the list; the rest of
        the transaction is untouched. */
    method AddRollback(fn: Callable, args: seq<Value>, kwargs: map<string, Value>)
      modifies this`rollbacks
      ensures rollbacks == [Rollback(fn, args, kwargs)] + old(rollbacks)
      ensures |rollbacks| == |old(rollbacks)| + 1
    {
      rollbacks := [Rollback(fn, args, kwargs)] + rollbacks;
    }

    /** Calls every stored action in stored order; an `Exception` from one
        is logged and the pass goes on, a `BaseException` ends the pass and
        escapes (`propagated`).  The list itself is not changed. */
    method ExecuteRollback(invoke: Rollback -> Outcome) returns (propagated: bool)
      modifies this`invoked, this`failureLog
      ensures var run := RunRollbacks(rollbacks, invoke);
        && invoked == old(invoked) + run.invoked
        && failureLog == old(failureLog) + run.logged
        && propagated == run.propagated
    {
      var rs := rollbacks;
      ghost var calls: seq<Rollback> := [];
      ghost var failures: seq<Rollback> := [];
      propagated := false;
      for i := 0 to |rs|
        invariant forall j :: 0 <= j < i ==> invoke(rs[j]) != RaisesBaseException
        invariant calls == rs[..i] && failures == Failed(rs[..i], invoke)
        invariant invoked == old(invoked) && failureLog == old(failureLog)
      {
        var rollback := rs[i];
        calls := calls + [rollback];
        assert calls == rs[..i + 1];
        FailedSnoc(rs, i, invoke);
        var outcome := invoke(rollback);
        if outcome == RaisesBaseException {
          RollbackStopsAtBaseException(rs, invoke, i);
          propagated := true;
          break;
        } else if outcome == RaisesException {
          failures := failures + [rollback];
        }
      }
      if !propagated {
        assert rs[..|rs|] == rs;
        RollbackAttemptsEveryAction(rs, invoke);
      }
      invoked, failureLog := invoked + calls, failureLog + failures;
    }

    method SetMeta(key: string, value: Value)
      modifies this`meta
      ensures meta == old(meta)[key := value]
    {
      meta := meta[key := value];
    }

    /** The value stored under `key`, or `default` when there is none. */
    function GetMeta(key: string, default: Value): (v: Value)
      reads this
      ensures key in meta ==> v == meta[key]
      ensures key !in meta ==> v == default
    {
      Get(meta, key, default)
    }

    /** The caller identity a downstream connection forwards: exactly the
        pairs for "token" and "domain_id", in that order, `Nil` when absent. */
    method GetConnectionMeta() returns (result: seq<(string, Value)>)
      ensures result == [("token", GetMeta("token", Nil)), ("domain_id", GetMeta("domain_id", Nil))]
    {
      var keys := ConnectionKeys;
      result := [];
      for i := 0 to |keys|
        invariant |result| == i
        invariant forall j :: 0 <= j < i ==> result[j] == (keys[j], GetMeta(keys[j], Nil))
      {
        result := result + [(keys[i], GetMeta(keys[i], Nil))];
      }
    }

    /** Notifies each handler in list order with status "IN_PROGRESS" and the
        normalised message; a handler's exception stops the fan-out and
        escapes (`raised`). */
    method NotifyEvent(message: Message, deliver: (Handler, string, map<string, Value>) -> Delivery)
      returns (raised: bool)
      modifies this`notified
      ensures var run := NotifySpec(eventHandlers, message, deliver);
        notified == old(notified) + run.sent && raised == run.raised
    {
      ghost var payload := Normalize(message);
      ghost var sent: seq<Notification> := [];
      var current := message;
      raised := false;
      for i := 0 to |eventHandlers|
        invariant Normalize(current) == payload
        invariant forall j :: 0 <= j < i ==> deliver(eventHandlers[j], InProgress, payload) != Raised
        invariant sent == Deliveries(eventHandlers[..i], payload)
        invariant notified == old(notified)
      {
        NormalizeIdempotent(current);
        if !current.DictMessage? {
          current := DictMessage(map["message" := Str(current.text)]);
        }
        var handler := eventHandlers[i];
        sent := sent + [Notification(handler, InProgress, current.fields)];
        assert sent == Deliveries(eventHandlers[..i + 1], payload);
        if deliver(handler, InProgress, current.fields) == Raised {
          NotifyStopsAtRaisingHandler(eventHandlers, payload, deliver, i);
          raised := true;
          break;
        }
      }
      if !raised {
        assert eventHandlers[..|eventHandlers|] == eventHandlers;
        NotifyReachesEveryHandler(eventHandlers, payload, deliver);
      }
      notified := notified + sent;
    }
  }
}

# Transactions and their registry, modelled in Dafny

This project models `src/spaceone/core/transaction.py`. That module gives each request a
*transaction*. A transaction carries:

- a trace id;
- the service, resource and verb it serves;
- a `meta` mapping (for example the caller's token and domain id);
- a stack of compensating actions (*rollbacks*);
- a list of event handlers.

A registry in execution-context-local storage (`LOCAL_STORAGE`) maps each trace id to its
transaction. `get_transaction` finds the "current" transaction in this order:

1. the active sampled span's trace id;
2. otherwise an explicit `trace_id`;
3. otherwise, when `is_create` holds, it creates and stores a new transaction;
4. otherwise it returns `None`.

The model is imperative, like the source:

- `Transactions.Transaction` is a class. Its `meta` and `rollbacks` fields are reassigned by its
  methods. No method changes `eventHandlers`; callers assign it.
- `Registry.LocalStorage` is a class whose `entries: map<string, Transaction>` stands for the
  attributes of `LOCAL_STORAGE`.
- `ExecuteRollback` and `NotifyEvent` are loops proved against recursive specification functions,
  `Rollbacks.RunRollbacks` and `Events.Fanout`. Lemmas then state what those functions promise
  in closed form.
- `GetConnectionMeta` is a loop proved to build exactly the two fixed pairs.

Files:

- `values.dfy`: optional arguments, meta values, Python truthiness of an optional string, `dict.get`.
- `rollbacks.dfy`: the stored rollback record, how one call can end, and the specification of a
  rollback pass. It also holds the LIFO registration lemmas.
- `events.dfy`: message normalisation and the handler fan-out.
- `transaction.dfy`: the `Transaction` class. It also holds `CallerMeta`, which stands for the
  caller's own mutable dict.
- `registry.dfy`: span context, collaborator answers, branch selection and the registry class.
- `scenarios.dfy`: end-to-end uses that each state one observable behaviour of a request.

Outside collaborators are inputs:

- The span context, the configured service name and the generator's next trace id come in as
  an `Environment` value.
- The behaviour of a compensating action is a function `invoke: Rollback -> Outcome`.
- The behaviour of a handler is a function `deliver: (Handler, string, map) -> Delivery`.
- Calls made and failures logged are recorded in ghost logs on the transaction: `invoked`,
  `failureLog` and `notified`.

Where the source's behaviour differs from a plain reading of its design, the model follows the code:

- `execute_rollback` catches `Exception` only. A `BaseException` that is not an `Exception`
  (`KeyboardInterrupt`, `SystemExit`) ends the pass and escapes. `Outcome.RaisesBaseException`
  and the `propagated` result model this, so the method "never raises" only when no action
  raises such an exception (`Rollbacks.RollbackAttemptsEveryAction`).
- A transaction's id is never taken from the active span. It is a truthy `trace_id` or a
  freshly generated id. So `create_transaction()` followed by `get_transaction(is_create=False)`
  returns the same object only in one case: a sampled span is active and its id is the one the
  transaction was created under (`Scenarios.CreateThenGetUnderSampledSpan`). Without a sampled
  span the lookup returns `None` (`Scenarios.CreateThenGetWithoutSpan`).
- `delete_transaction()` resolves with `is_create=False` and no `trace_id`. Without a sampled
  span it therefore removes nothing (`Registry.LocalStorage.DeleteTransaction`,
  `Scenarios.DeleteWithoutSpanKeepsEntry`).
- `create_transaction` silently replaces an entry stored under the same id.
- Without a sampled span and without an id, every `get_transaction()` creates and stores one
  more transaction (`Scenarios.GetWithoutContextCreatesEachTime`).

## Model

| member | source | states |
|---|---|---|
| `Values.Truthy` | src/spaceone/core/transaction.py:33 | an optional string is truthy exactly when it is neither `None` nor `""` |
| `Values.Get` | src/spaceone/core/transaction.py:83 | `dict.get`: the stored value when the key is present, the default otherwise |
| `Values.GetAfterUpdate` | src/spaceone/core/transaction.py:79-83 | after writing `value` under `key`, reading `key` gives `value` and reading any other key gives what it gave before |
| `Transactions.InitialId` | src/spaceone/core/transaction.py:32-36 | a truthy trace id is used verbatim; `None` or `""` gives the generator's id; the id is never empty |
| `Transactions.InitialMeta` | src/spaceone/core/transaction.py:38-42 | `None` gives an empty mapping; any caller mapping, empty (falsy) or not, gives its entries |
| `Transactions.Transaction.constructor` | src/spaceone/core/transaction.py:20-27 | fields as given, id and meta as above, empty rollback and handler lists, empty logs |
| `Transactions.Transaction.AddRollback` | src/spaceone/core/transaction.py:60-65 | the new record `(fn, args, kwargs)` is put in front of the old list; the list grows by one; nothing else changes |
| `Transactions.Transaction.ExecuteRollback` | src/spaceone/core/transaction.py:67-73 | the calls made, the failures logged and whether an exception escaped are those of `RunRollbacks` on the stored list; the list is unchanged |
| `Transactions.Transaction.SetMeta` | src/spaceone/core/transaction.py:79-80 | `meta` becomes the old mapping with `key` set to `value` |
| `Transactions.Transaction.GetMeta` | src/spaceone/core/transaction.py:82-83 | the stored value when `key` is present, `default` otherwise; never fails |
| `Transactions.Transaction.GetConnectionMeta` | src/spaceone/core/transaction.py:85-90 | exactly `[("token", get_meta("token")), ("domain_id", get_meta("domain_id"))]`, `Nil` for a missing key |
| `Transactions.Transaction.NotifyEvent` | src/spaceone/core/transaction.py:92-97 | the notifications made and whether an exception escaped are those of `Fanout` over the handler list with the normalised message |
| `Rollbacks.Failed` | src/spaceone/core/transaction.py:71-73 | each logged failure is a stored action whose call raised an `Exception`; never more failures than actions |
| `Rollbacks.FailedIsComplete` | src/spaceone/core/transaction.py:68-73 | no failure goes unlogged: every stored action whose call raises an `Exception` is among the logged ones |
| `Rollbacks.FailedConcat` | src/spaceone/core/transaction.py:68-73 | the failures logged over two consecutive parts of the list are those of the first part followed by those of the second |
| `Rollbacks.FailedSnoc` | src/spaceone/core/transaction.py:68-73 | one more action adds itself to the failures exactly when its call raised an `Exception` |
| `Rollbacks.RunRollbacks` | src/spaceone/core/transaction.py:67-73 | reference definition of a rollback pass, against which `ExecuteRollback` is proved; its own contract states only that the actions called are a prefix of the stored list, and its closed forms are stated by `RollbackAttemptsEveryAction` and `RollbackStopsAtBaseException` |
| `Rollbacks.RollbackAttemptsEveryAction` | src/spaceone/core/transaction.py:67-73 | with no `BaseException`, every stored action is called exactly once, in stored order, even after earlier failures; every failure is logged and nothing escapes |
| `Rollbacks.RollbackStopsAtBaseException` | src/spaceone/core/transaction.py:67-73 | the first `BaseException`, from action `k`, ends the pass: actions `0..k` were called, failures among `0..k-1` were logged, and the exception escapes |
| `Rollbacks.AfterRegistering` | src/spaceone/core/transaction.py:60-65 | the list after `add_rollback` of each action in turn holds one more record per registered action; its order is stated by `RegisteringReverses` |
| `Rollbacks.RegisteringReverses` | src/spaceone/core/transaction.py:60-65 | registering `f1..fn` in turn onto a list puts `fn, ..., f1` in front of it, with the old list unchanged behind them |
| `Rollbacks.RollbacksRunInReverse` | src/spaceone/core/transaction.py:60-70 | actions registered `f1..fn` are called `fn, ..., f1`, each once, and nothing escapes |
| `Events.Normalize` | src/spaceone/core/transaction.py:94-95 | a mapping passes unchanged; any other message becomes the one-key mapping `{"message": str(message)}` |
| `Events.NormalizeIdempotent` | src/spaceone/core/transaction.py:93-95 | normalising a normalised message changes nothing, so reassigning `message` in the loop gives every handler the same mapping (used by `NotifyEvent`'s loop) |
| `Events.Deliveries` | src/spaceone/core/transaction.py:93-97 | one notification per handler, in list order, each with status "IN_PROGRESS" and the same payload |
| `Events.Fanout` | src/spaceone/core/transaction.py:93-97 | reference definition of a fan-out, against which `NotifyEvent` is proved; its own contract states only that at most one notification is made per handler. Its shape is stated by `FanoutIsPrefix`, and its exact closed forms by `NotifyReachesEveryHandler` and `NotifyStopsAtRaisingHandler` |
| `Events.FanoutIsPrefix` | src/spaceone/core/transaction.py:93-97 | a fan-out notifies a prefix of the handler list, in order, each with "IN_PROGRESS" and the payload; the whole list when nothing escapes; when an exception escapes, the last handler notified is one that raises |
| `Events.NotifySpec` | src/spaceone/core/transaction.py:92-97 | `notify_event(message)`: notification `i` goes to handler `i` with "IN_PROGRESS" and the normalised message, at most one per handler, and every handler is notified when nothing escapes |
| `Events.NotifyReachesEveryHandler` | src/spaceone/core/transaction.py:93-97 | when no handler raises, every handler is notified once, in order, with "IN_PROGRESS" and the payload, and nothing escapes |
| `Events.NotifyStopsAtRaisingHandler` | src/spaceone/core/transaction.py:93-97 | the first handler that raises is the last one notified, and its exception escapes (no isolation) |
| `Registry.Resolve` | src/spaceone/core/transaction.py:103-111 | a lookup exactly when there is a sampled span or a truthy `trace_id`, of a non-empty key that is one of the two; creation exactly when neither and `is_create`; `None` exactly when neither and not `is_create` |
| `Registry.Find` | src/spaceone/core/transaction.py:105-107 | `getattr(LOCAL_STORAGE, key, None)`: the stored object when the key is present, `None` exactly when it is absent |
| `Registry.SampledSpanTakesPrecedence` | src/spaceone/core/transaction.py:100-105 | with a sampled span the result is the lookup of the span's id, whatever `trace_id` and `is_create` are |
| `Registry.ExplicitIdNeverCreates` | src/spaceone/core/transaction.py:106-107 | without a sampled span, a truthy `trace_id` is looked up and never leads to creation, whatever `is_create` is |
| `Registry.CreationIsTheLastResort` | src/spaceone/core/transaction.py:100-111 | creation happens if and only if there is no sampled span, no truthy id and `is_create`; `None` if and only if the same with `not is_create` |
| `Registry.LocalStorage.constructor` | src/spaceone/core/transaction.py:15 | the storage starts empty |
| `Registry.LocalStorage.CreateTransaction` | src/spaceone/core/transaction.py:114-118 | a fresh transaction is built from the arguments and stored under its id, replacing any previous entry; looking that id up then gives this same object |
| `Registry.LocalStorage.GetTransaction` | src/spaceone/core/transaction.py:100-111 | the lookup paths change nothing and give the stored object or null; the creation path stores one fresh blank transaction under the generator's id (configured service, no resource or verb, empty meta, no rollbacks, no handlers, empty logs); otherwise null and nothing changes |
| `Registry.LocalStorage.DeleteTransaction` | src/spaceone/core/transaction.py:121-124 | with a sampled span, exactly the span's id is removed (a no-op if absent); without one nothing changes; every other entry is kept |
| `Scenarios.ConnectionMetaOfTokenOnly` | src/spaceone/core/transaction.py:85-90 | with `meta = {"token": "abc"}` the result is `[("token", "abc"), ("domain_id", None)]` |
| `Scenarios.MetaIsCopiedOnConstruction` | src/spaceone/core/transaction.py:38-42 | changing the caller's mapping after construction leaves the transaction's `meta` as it was |
| `Scenarios.SetMetaThenGetMeta` | src/spaceone/core/transaction.py:79-83 | `get_meta` reads back what `set_meta` wrote |
| `Scenarios.RollbacksRunNewestFirst` | src/spaceone/core/transaction.py:60-73 | three actions registered in turn are called newest first, once each |
| `Scenarios.NotifyWrapsPlainMessage` | src/spaceone/core/transaction.py:92-97 | a non-mapping message reaches two handlers, in order, as the same `{"message": ...}` mapping with status "IN_PROGRESS" |
| `Scenarios.UndoCreateScenario` | src/spaceone/core/transaction.py:60-124 | the one registered compensating action is called exactly once, whatever it raises; a `BaseException` escapes the pass, and the transaction then stays registered; otherwise, after deletion, nothing resolves without creation |
| `Scenarios.CreateThenGetUnderSampledSpan` | src/spaceone/core/transaction.py:100-118 | a transaction created under the sampled span's id is the very object a later lookup without creation returns |
| `Scenarios.CreateThenGetWithoutSpan` | src/spaceone/core/transaction.py:100-118 | without a sampled span, a lookup without creation finds nothing, even right after a creation |
| `Scenarios.DeleteWithoutSpanKeepsEntry` | src/spaceone/core/transaction.py:100-124 | without a sampled span, deletion removes nothing: the entry is still found by its explicit id |
| `Scenarios.GetWithoutContextCreatesEachTime` | src/spaceone/core/transaction.py:100-118 | without a span or an id, two `get_transaction()` calls create and store two distinct transactions |

## Left out

- OpenTelemetry (`trace.get_current_span`, `get_span_context`, `TraceFlags`, `format_trace_id`): the active span is the `SpanContext` input. `sampled` stands for `trace_flags == TraceFlags.SAMPLED`, and `traceId` is the already formatted id.
- Trace-id generation (`utils.generate_trace_id` and its hex formatting): only its result is modelled, as `Environment.freshId`, an arbitrary non-empty string.
- `config.get_service()`: a read of outside configuration. Its answer is a constructor argument (`Environment.service` for the registry).
- Thread-local scoping (`threading.local`): the model has one `LocalStorage`, which is a single execution context. Other attributes that code may set on `LOCAL_STORAGE` are not modelled, so a key never meets a non-transaction attribute.
- Logging (`_LOGGER.info`, `traceback.format_exc`): the ghost `failureLog` records which action failed, not the text.
- Calling `fn(*args, **kwargs)` and `handler.notify(...)`: their effect is reduced to the outcome `invoke` and `deliver` give. Actions or handlers that change the transaction while they run are not modelled. Examples are adding a rollback during the pass, or changing `meta` during a notification.
- `__repr__` and `str(message)`: a non-mapping message is modelled by the string `str` would give it (`Events.OtherMessage`).
- The `meta` property hands out the internal dict by reference. Aliasing through it is not modelled, because `meta` is a map value here. Keys are strings and values are the `Value` datatype.
- `notify_event` hands the same dict object, which may be the caller's own, to every handler, so a handler that changes it changes what later handlers receive. The model's payload is a map value, so this is not captured: every handler gets the same mapping.
- `meta.copy()` in `_set_meta` is shallow: mutable values nested in the caller's dict stay shared with the transaction. Values here are immutable, so `Scenarios.MetaIsCopiedOnConstruction` holds only for rebinding top-level keys.
- `invoke` and `deliver` are functions, so two identical rollback records, or one handler notified twice with the same payload, end the same way. Real calls may end differently from one call to the next.
- No method of the source adds event handlers. Callers assign `eventHandlers` directly, as the source's callers must append to `_event_handlers`.
- Transactions.Transaction.ExecuteRollback: its ghost logs receive a pass's calls and failures when the pass ends, not call by call. The recorded order and content are the same.
- Transactions.Transaction.NotifyEvent: its ghost log receives a fan-out's notifications when it ends, not call by call. The recorded order and content are the same.

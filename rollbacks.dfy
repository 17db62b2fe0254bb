/** Compensating actions: the records `add_rollback` stores and what
    `execute_rollback` does with them. */
module Rollbacks {
  import opened Values

  /** The callable handed to `add_rollback`, known only by its name. */
  datatype Callable = Callable(name: string)

  /** One stored compensating action: the callable with its positional and
      keyword arguments. */
  datatype Rollback = Rollback(fn: Callable, args: seq<Value>, kwargs: map<string, Value>)

  /** How one call of a compensating action ends. */
  datatype Outcome =
    | Returns              // the call returned normally
    | RaisesException      // raised an `Exception`: caught and logged
    | RaisesBaseException  // raised a `BaseException` that is not an `Exception`
                           // (`KeyboardInterrupt`, `SystemExit`): not caught

  /** The actions of `rs` whose call raises an `Exception`, in order: the
      failures the loop logs. */
  function Failed(rs: seq<Rollback>, invoke: Rollback -> Outcome): (r: seq<Rollback>)
    ensures |r| <= |rs|
    ensures forall a :: a in r ==> a in rs && invoke(a) == RaisesException
  {
    if rs == [] then []
    else (if invoke(rs[0]) == RaisesException then [rs[0]] else []) + Failed(rs[1..], invoke)
  }

  /** No failure goes unlogged: every stored action whose call raises an
      `Exception` is among the logged ones. */
  lemma {:induction false} FailedIsComplete(rs: seq<Rollback>, invoke: Rollback -> Outcome)
    ensures forall a :: a in rs && invoke(a) == RaisesException ==> a in Failed(rs, invoke)
  {
    if rs != [] {
      FailedIsComplete(rs[1..], invoke);
      forall a | a in rs && invoke(a) == RaisesException ensures a in Failed(rs, invoke) {
        if a != rs[0] {
          assert a in rs[1..];
        }
      }
    }
  }

  lemma {:induction false} FailedConcat(a: seq<Rollback>, b: seq<Rollback>, invoke: Rollback -> Outcome)
    ensures Failed(a + b, invoke) == Failed(a, invoke) + Failed(b, invoke)
  {
    if a == [] {
      assert a + b == b;
    } else {
      assert (a + b)[1..] == a[1..] + b;
      FailedConcat(a[1..], b, invoke);
    }
  }

  /** The failures among the first `i + 1` actions extend those among the
      first `i` by at most action `i` itself. */
  lemma FailedSnoc(rs: seq<Rollback>, i: nat, invoke: Rollback -> Outcome)
    requires i < |rs|
    ensures Failed(rs[..i + 1], invoke)
      == Failed(rs[..i], invoke) + (if invoke(rs[i]) == RaisesException then [rs[i]] else [])
  {
    assert rs[..i + 1] == rs[..i] + [rs[i]];
    FailedConcat(rs[..i], [rs[i]], invoke);
  }

  /** What one `execute_rollback` pass does: the actions it calls, in order,
      the failures it logs, and whether an exception escapes it. */
  datatype RollbackRun = RollbackRun(invoked: seq<Rollback>, logged: seq<Rollback>, propagated: bool)

  /** The pass over the stored list `rs`, when calling action `a` ends as
      `invoke(a)`: one `try`/`except Exception` per action, front to back. */
  function RunRollbacks(rs: seq<Rollback>, invoke: Rollback -> Outcome): (run: RollbackRun)
    ensures run.invoked <= rs
  {
    if rs == [] then RollbackRun([], [], false)
    else
      match invoke(rs[0])
      case RaisesBaseException => RollbackRun([rs[0]], [], true)
      case RaisesException =>
        var rest := RunRollbacks(rs[1..], invoke);
        RollbackRun([rs[0]] + rest.invoked, [rs[0]] + rest.logged, rest.propagated)
      case Returns =>
        var rest := RunRollbacks(rs[1..], invoke);
        RollbackRun([rs[0]] + rest.invoked, rest.logged, rest.propagated)
  }

  /** With no `BaseException`, every stored action is called exactly once, in
      stored order, even after earlier ones raised; every `Exception` is
      logged and none escapes. */
  lemma {:induction false} RollbackAttemptsEveryAction(rs: seq<Rollback>, invoke: Rollback -> Outcome)
    requires forall j :: 0 <= j < |rs| ==> invoke(rs[j]) != RaisesBaseException
    ensures RunRollbacks(rs, invoke) == RollbackRun(rs, Failed(rs, invoke), false)
  {
    if rs != [] {
      assert invoke(rs[0]) != RaisesBaseException;
      forall j | 0 <= j < |rs[1..]| ensures invoke(rs[1..][j]) != RaisesBaseException {
        assert rs[1..][j] == rs[j + 1];
      }
      RollbackAttemptsEveryAction(rs[1..], invoke);
      assert [rs[0]] + rs[1..] == rs;
    }
  }

  /** A `BaseException` raised by the action at position `k` (the first
      such) ends the pass: actions `0..k` were called, those of `0..k-1` that
      raised an `Exception` were logged, and the exception escapes. */
  lemma {:induction false} RollbackStopsAtBaseException(rs: seq<Rollback>, invoke: Rollback -> Outcome, k: nat)
    requires k < |rs| && invoke(rs[k]) == RaisesBaseException
    requires forall j :: 0 <= j < k ==> invoke(rs[j]) != RaisesBaseException
    ensures RunRollbacks(rs, invoke) == RollbackRun(rs[..k + 1], Failed(rs[..k], invoke), true)
  {
    if k > 0 {
      assert invoke(rs[0]) != RaisesBaseException;
      forall j | 0 <= j < k - 1 ensures invoke(rs[1..][j]) != RaisesBaseException {
        assert rs[1..][j] == rs[j + 1];
      }
      RollbackStopsAtBaseException(rs[1..], invoke, k - 1);
      assert rs[..k + 1] == [rs[0]] + rs[1..][..k];
      assert rs[..k][1..] == rs[1..][..k - 1];
    }
  }

  /** The rollback list after `add_rollback` was called for each of
      `actions` in turn, starting from the list `rs`. */
  function AfterRegistering(rs: seq<Rollback>, actions: seq<Rollback>): (r: seq<Rollback>)
    ensures |r| == |rs| + |actions|
    decreases |actions|
  {
    if actions == [] then rs else AfterRegistering([actions[0]] + rs, actions[1..])
  }

  /** Registering prepends: after `actions` = f1, ..., fn the list starts
      with fn, ..., f1 and the old list `rs` follows unchanged. */
  lemma {:induction false} RegisteringReverses(rs: seq<Rollback>, actions: seq<Rollback>)
    ensures |AfterRegistering(rs, actions)| == |actions| + |rs|
    ensures forall k :: 0 <= k < |actions| ==> AfterRegistering(rs, actions)[k] == actions[|actions| - 1 - k]
    ensures AfterRegistering(rs, actions)[|actions|..] == rs
    decreases |actions|
  {
    if actions != [] {
      var n := |actions|;
      var after := AfterRegistering(rs, actions);
      RegisteringReverses([actions[0]] + rs, actions[1..]);
      assert after == AfterRegistering([actions[0]] + rs, actions[1..]);
      assert after[n - 1..] == [actions[0]] + rs;
      assert after[n..] == after[n - 1..][1..];
      forall k | 0 <= k < n ensures after[k] == actions[n - 1 - k] {
        if k < n - 1 {
          assert actions[1..][n - 2 - k] == actions[n - 1 - k];
        } else {
          assert after[k] == after[n - 1..][0];
        }
      }
    }
  }

  /** Actions registered in the order f1, ..., fn onto an empty list are
      called fn, ..., f1 by the rollback pass, each once. */
  lemma RollbacksRunInReverse(actions: seq<Rollback>, invoke: Rollback -> Outcome)
    requires forall j :: 0 <= j < |actions| ==> invoke(actions[j]) != RaisesBaseException
    ensures var run := RunRollbacks(AfterRegistering([], actions), invoke);
      && |run.invoked| == |actions|
      && (forall k :: 0 <= k < |actions| ==> run.invoked[k] == actions[|actions| - 1 - k])
      && !run.propagated
  {
    var registered := AfterRegistering([], actions);
    RegisteringReverses([], actions);
    forall j | 0 <= j < |registered| ensures invoke(registered[j]) != RaisesBaseException {
      assert registered[j] == actions[|actions| - 1 - j];
    }
    RollbackAttemptsEveryAction(registered, invoke);
  }
}

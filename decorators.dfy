/** The failure-simulating decorator used by the demos (common/python/decorators.py):
    `simulate_failure(n)(f)` is a wrapper with its own call counter that raises for the
    first `n` calls and calls `f` after that. */
module Decorators {
  import opened Wrappers
  import opened Strings

  /** The number of failures when the decorator is used without an argument. */
  const DefaultFailureCount: int := 3

  /** Whether the `k`-th call (counting from 1) of a wrapper built with `failureCount`
      raises. */
  predicate Fails(k: nat, failureCount: int)
  {
    k <= failureCount
  }

  const FailurePrefix: string := "Simulated failure "

  /** The message of the error raised by the `k`-th call: "Simulated failure k/n for
      function 'name'". */
  function FailureMessage(k: nat, failureCount: int, name: string): (m: string)
    ensures |m| > |FailurePrefix|
    ensures m[..|FailurePrefix|] == FailurePrefix
    ensures m[|FailurePrefix|..] == NatToString(k) + ("/" + IntToString(failureCount) + " for function '" + name + "'")
  {
    var rest := "/" + IntToString(failureCount) + " for function '" + name + "'";
    assert FailurePrefix + IntToString(k) + rest == FailurePrefix + (NatToString(k) + rest);
    FailurePrefix + IntToString(k) + rest
  }

  /** A wrapper built by `simulate_failure(failureCount)` around `func`. It carries the wrapped
      function's name and docstring, and a call counter of its own. */
  class SimulatedFailure<A, R> {
    const failureCount: int
    const func: A -> R
    /** `__name__` and `__doc__`, copied from the wrapped function. */
    const name: string
    const doc: Option<string>
    /** The counter the wrapper closes over. */
    var callCount: nat
    /** What each call so far answered, in order. */
    ghost var history: seq<Result<R>>

    /** Each answer so far is the one its call number calls for. */
    ghost predicate Valid()
      reads this
    {
      && |history| == callCount
      && forall i :: 0 <= i < |history| ==>
           history[i].Failure? == Fails(i + 1, failureCount)
           && (history[i].Failure? ==> history[i].error == FailureMessage(i + 1, failureCount, name))
    }

    /** `simulate_failure(failureCount)(func)`: a fresh wrapper that has not been called yet. */
    constructor (failureCount: int, func: A -> R, name: string, doc: Option<string>)
      ensures this.failureCount == failureCount && this.func == func
      ensures this.name == name && this.doc == doc
      ensures callCount == 0 && history == []
      ensures Valid()
    {
      this.failureCount := failureCount;
      this.func := func;
      this.name := name;
      this.doc := doc;
      callCount := 0;
      history := [];
    }

    /** `simulate_failure()(func)`: the default of three failures. */
    constructor Default(func: A -> R, name: string, doc: Option<string>)
      ensures failureCount == DefaultFailureCount && this.func == func
      ensures this.name == name && this.doc == doc
      ensures callCount == 0 && history == []
      ensures Valid()
    {
      failureCount := DefaultFailureCount;
      this.func := func;
      this.name := name;
      this.doc := doc;
      callCount := 0;
      history := [];
    }

    /** One call of the wrapper: the counter goes up first; while it is at most the failure
        count the call raises, and after that it returns what the wrapped function returns. */
    method Call(args: A) returns (r: Result<R>)
      requires Valid()
      modifies this`callCount, this`history
      ensures callCount == old(callCount) + 1
      ensures r.Failure? <==> Fails(callCount, failureCount)
      ensures r.Failure? ==> r.error == FailureMessage(callCount, failureCount, name)
      ensures r.Success? ==> r.value == func(args)
      ensures history == old(history) + [r]
      ensures Valid()
    {
      callCount := callCount + 1;
      if callCount <= failureCount {
        r := Failure(FailureMessage(callCount, failureCount, name));
      } else {
        r := Success(func(args));
      }
      history := history + [r];
    }
  }

  /** Each decorated function has a counter of its own: calling one wrapper leaves another
      wrapper's counter and answers as they were. */
  method CallOne<A, R>(w: SimulatedFailure<A, R>, other: SimulatedFailure<A, R>, args: A) returns (r: Result<R>)
    requires w != other && w.Valid() && other.Valid()
    modifies w
    ensures w.callCount == old(w.callCount) + 1 && w.Valid()
    ensures other.callCount == old(other.callCount) && other.history == old(other.history) && other.Valid()
  {
    r := w.Call(args);
  }

  // ---------------------------------------------------------------------------------------
  // Properties of the failure pattern.

  /** The number of the first `calls` calls that raise. */
  function FailuresIn(calls: nat, failureCount: int): nat
  {
    if calls == 0 then 0 else FailuresIn(calls - 1, failureCount) + (if Fails(calls, failureCount) then 1 else 0)
  }

  /** Of the first `calls` calls, exactly min(calls, failureCount) raise, and none when the
      failure count is not positive. */
  lemma {:induction false} FailuresInCount(calls: nat, failureCount: int)
    ensures FailuresIn(calls, failureCount) == if failureCount <= 0 then 0 else if calls <= failureCount then calls else failureCount
  {
    if calls > 0 {
      FailuresInCount(calls - 1, failureCount);
    }
  }

  /** The calls that raise come first: once a call succeeds, every later call succeeds, and
      every call before a failing one fails too. */
  lemma FailuresComeFirst(j: nat, k: nat, failureCount: int)
    requires 1 <= j <= k
    ensures Fails(k, failureCount) ==> Fails(j, failureCount)
    ensures !Fails(j, failureCount) ==> !Fails(k, failureCount)
  {
  }

  /** A wrapper's answers count the failures of its first calls: the history holds exactly
      min(calls, failureCount) failures. */
  lemma {:induction false} HistoryFailures<R>(history: seq<Result<R>>, failureCount: int)
    requires forall i :: 0 <= i < |history| ==> history[i].Failure? == Fails(i + 1, failureCount)
    ensures |set i | 0 <= i < |history| && history[i].Failure?| == FailuresIn(|history|, failureCount)
    decreases |history|
  {
    if |history| > 0 {
      var n := |history| - 1;
      var prefix := history[..n];
      assert forall i :: 0 <= i < |prefix| ==> prefix[i] == history[i];
      HistoryFailures(prefix, failureCount);
      var before := set i | 0 <= i < |prefix| && prefix[i].Failure?;
      var all := set i | 0 <= i < |history| && history[i].Failure?;
      if history[n].Failure? {
        assert all == before + {n};
        assert n !in before;
      } else {
        assert all == before;
      }
    }
  }

  /** A run of digits followed by a character that is not a digit determines the run. */
  lemma DigitRunsAgree(d1: string, r1: string, d2: string, r2: string)
    requires IsDigits(d1) && IsDigits(d2)
    requires |r1| > 0 && |r2| > 0 && !IsDigit(r1[0]) && !IsDigit(r2[0])
    ensures d1 + r1 == d2 + r2 ==> d1 == d2
  {
    if |d1| < |d2| {
      assert (d1 + r1)[|d1|] == r1[0] != d2[|d1|] == (d2 + r2)[|d1|];
    } else if |d2| < |d1| {
      assert (d2 + r2)[|d2|] == r2[0] != d1[|d2|] == (d1 + r1)[|d2|];
    } else if d1 + r1 == d2 + r2 {
      assert d1 == (d1 + r1)[..|d1|];
      assert d2 == (d2 + r2)[..|d2|];
    }
  }

  /** The messages of different calls of one wrapper differ: each names its call number. */
  lemma FailureMessagesDistinct(j: nat, k: nat, failureCount: int, name: string)
    requires FailureMessage(j, failureCount, name) == FailureMessage(k, failureCount, name)
    ensures j == k
  {
    var rest := "/" + IntToString(failureCount) + " for function '" + name + "'";
    var mj, mk := FailureMessage(j, failureCount, name), FailureMessage(k, failureCount, name);
    assert NatToString(j) + rest == mj[|FailurePrefix|..] == mk[|FailurePrefix|..] == NatToString(k) + rest;
    DigitRunsAgree(NatToString(j), rest, NatToString(k), rest);
    NatToStringInjective(j, k);
  }
}

/** The ordered fallback loop shared by `send_with_connection_fallback` and
    `test_smtp_connection`: try each candidate in turn, stop at the first
    success, otherwise remember the last error. */
module Fallback {
  import opened Wrappers

  /** What one attempt does: it returns, or it raises with an error text. */
  datatype Outcome = Success | Failure(error: string)

  /** The loop's result: the index of the first candidate that worked, or
      the last error seen (`last_error`, `None` when nothing was tried). */
  datatype Attempted = Succeeded(index: nat) | AllFailed(lastError: Option<string>)

  /** Reference definition of the loop, from the front of the list. */
  function FirstSuccess<R>(candidates: seq<R>, attempt: R -> Outcome): (r: Attempted)
    ensures r.Succeeded? ==>
      && r.index < |candidates|
      && attempt(candidates[r.index]).Success?
      && forall j :: 0 <= j < r.index ==> attempt(candidates[j]).Failure?
    ensures r.AllFailed? ==>
      && (forall j :: 0 <= j < |candidates| ==> attempt(candidates[j]).Failure?)
      && r.lastError == if candidates == [] then None else Some(attempt(candidates[|candidates| - 1]).error)
    decreases |candidates|
  {
    if candidates == [] then AllFailed(None)
    else if attempt(candidates[0]).Success? then Succeeded(0)
    else match FirstSuccess(candidates[1..], attempt)
      case Succeeded(i) => Succeeded(i + 1)
      case AllFailed(e) => AllFailed(if e.None? then Some(attempt(candidates[0]).error) else e)
  }

  /** The candidates the loop actually tried, in order. */
  function Tried<R>(candidates: seq<R>, r: Attempted): seq<R>
    requires r.Succeeded? ==> r.index < |candidates|
  {
    if r.Succeeded? then candidates[..r.index + 1] else candidates
  }

  /** The loop itself: attempts the candidates in order until one succeeds. */
  method TryInOrder<R>(candidates: seq<R>, attempt: R -> Outcome) returns (r: Attempted, tried: seq<R>)
    ensures r == FirstSuccess(candidates, attempt)
    ensures tried == Tried(candidates, r)
  {
    var lastError: Option<string> := None;
    tried := [];
    var i := 0;
    while i < |candidates|
      invariant 0 <= i <= |candidates|
      invariant tried == candidates[..i]
      invariant forall j :: 0 <= j < i ==> attempt(candidates[j]).Failure?
      invariant lastError == if i == 0 then None else Some(attempt(candidates[i - 1]).error)
    {
      var candidate := candidates[i];
      tried := tried + [candidate];
      assert tried == candidates[..i + 1];
      var outcome := attempt(candidate);
      if outcome.Success? {
        r := Succeeded(i);
        return;
      }
      lastError := Some(outcome.error);
      i := i + 1;
    }
    assert tried == candidates;
    r := AllFailed(lastError);
  }

  /** Candidate i is attempted only after all earlier ones failed, and the
      last one tried is the one that decided the result. */
  lemma TriedOnlyAfterFailures<R>(candidates: seq<R>, attempt: R -> Outcome)
    ensures var r := FirstSuccess(candidates, attempt);
      var t := Tried(candidates, r);
      && (forall j :: 0 <= j < |t| - 1 ==> attempt(t[j]).Failure?)
      && (r.Succeeded? ==> t != [] && attempt(t[|t| - 1]).Success?)
      && |t| <= |candidates|
  {
  }

  /** The loop succeeds exactly when some candidate would succeed. */
  lemma SucceedsIffSomeSucceeds<R>(candidates: seq<R>, attempt: R -> Outcome)
    ensures FirstSuccess(candidates, attempt).Succeeded? <==>
      exists j :: 0 <= j < |candidates| && attempt(candidates[j]).Success?
  {
  }

  /** Changing what candidates after the first success would do changes
      nothing: the loop does not look past it. */
  lemma {:induction false} StopsAtFirstSuccess<R>(candidates: seq<R>, rest: seq<R>, attempt: R -> Outcome)
    requires FirstSuccess(candidates, attempt).Succeeded?
    ensures FirstSuccess(candidates + rest, attempt) == FirstSuccess(candidates, attempt)
    decreases |candidates|
  {
    assert (candidates + rest)[0] == candidates[0];
    if attempt(candidates[0]).Failure? {
      assert (candidates + rest)[1..] == candidates[1..] + rest;
      StopsAtFirstSuccess(candidates[1..], rest, attempt);
    }
  }
}

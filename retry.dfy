/** The bounded retry loops around the cloud SDK calls (`describe_tags`,
    `describe_stacks`, `describe_stack_resources`). */
module Retries {

  /** What one SDK call does: a connection-class error (`ConnectionError`,
      `EndpointConnectionError`), a `ClientError`, or a response. */
  datatype CallOutcome<T> = ConnErr | ClientErr | Ok(resp: T)

  /** How a retry loop ends: with a response, stopped by a `ClientError`,
      or with every attempt used up by connection errors. */
  datatype Attempt<T> = Answered(resp: T) | Refused | Exhausted

  /** The end of a retry loop together with the number of calls it made. */
  datatype RetryRun<T> = RetryRun(result: Attempt<T>, calls: nat)

  /** Attempt budgets of the three call sites. */
  const TagAttempts: nat := 20
  const StackAttempts: nat := 10
  const ResourceAttempts: nat := 3

  /** The outcome of the `i`-th call (from 0) in a scripted run of the service;
      a call past the end of the script finds the endpoint unreachable. */
  function OutcomeAt<T>(outcomes: seq<CallOutcome<T>>, i: nat): (o: CallOutcome<T>)
  {
    if i < |outcomes| then outcomes[i] else ConnErr
  }

  /** How a loop ends on a call that does not raise a connection error. */
  function Decision<T>(o: CallOutcome<T>): (a: Attempt<T>)
    requires !o.ConnErr?
    ensures !a.Exhausted?
  {
    if o.ClientErr? then Refused else Answered(o.resp)
  }

  /** The rest of a loop that is about to make call `i` with `left` attempts left. */
  function RunFrom<T>(outcomes: seq<CallOutcome<T>>, i: nat, left: nat): (r: RetryRun<T>)
    ensures i <= r.calls <= i + left
    ensures r.result.Exhausted? ==> r.calls == i + left
    ensures !r.result.Exhausted? ==> i < r.calls && !OutcomeAt(outcomes, r.calls - 1).ConnErr?
    decreases left
  {
    if left == 0 then RetryRun(Exhausted, i)
    else match OutcomeAt(outcomes, i)
      case ConnErr => RunFrom(outcomes, i + 1, left - 1)
      case ClientErr => RetryRun(Refused, i + 1)
      case Ok(v) => RetryRun(Answered(v), i + 1)
  }

  /** A whole loop with `budget` attempts. */
  function Retried<T>(outcomes: seq<CallOutcome<T>>, budget: nat): (r: RetryRun<T>)
  {
    RunFrom(outcomes, 0, budget)
  }

  /** A loop is exhausted exactly when each of its attempts hit a connection error. */
  lemma {:induction false} RunFromExhausted<T>(outcomes: seq<CallOutcome<T>>, i: nat, left: nat)
    ensures RunFrom(outcomes, i, left).result.Exhausted?
        <==> forall j :: i <= j < i + left ==> OutcomeAt(outcomes, j).ConnErr?
    decreases left
  {
    if left > 0 {
      RunFromExhausted(outcomes, i + 1, left - 1);
    }
  }

  /** A loop ends at the first call that is not a connection error, if that call
      falls within the budget, and that call decides the result. */
  lemma {:induction false} RunFromDecided<T>(outcomes: seq<CallOutcome<T>>, i: nat, left: nat, k: nat)
    requires i <= k < i + left
    requires forall j :: i <= j < k ==> OutcomeAt(outcomes, j).ConnErr?
    requires !OutcomeAt(outcomes, k).ConnErr?
    ensures RunFrom(outcomes, i, left) == RetryRun(Decision(OutcomeAt(outcomes, k)), k + 1)
    decreases left
  {
    if i < k {
      RunFromDecided(outcomes, i + 1, left - 1, k);
    }
  }

  /** Only connection errors consume attempts: `budget` of them in a row exhaust the loop. */
  lemma RetriedExhausted<T>(outcomes: seq<CallOutcome<T>>, budget: nat)
    ensures Retried(outcomes, budget).result.Exhausted?
        <==> forall j :: 0 <= j < budget ==> OutcomeAt(outcomes, j).ConnErr?
    ensures Retried(outcomes, budget).result.Exhausted? ==> Retried(outcomes, budget).calls == budget
  {
    RunFromExhausted(outcomes, 0, budget);
  }

  /** The first non-connection outcome `k` within the budget decides the loop after `k + 1` calls. */
  lemma RetriedDecided<T>(outcomes: seq<CallOutcome<T>>, budget: nat, k: nat)
    requires k < budget
    requires forall j :: 0 <= j < k ==> OutcomeAt(outcomes, j).ConnErr?
    requires !OutcomeAt(outcomes, k).ConnErr?
    ensures Retried(outcomes, budget) == RetryRun(Decision(OutcomeAt(outcomes, k)), k + 1)
  {
    RunFromDecided(outcomes, 0, budget, k);
  }

  /** The loop `while not resp and retry < budget`: a connection error bumps `retry`
      (after a fixed sleep), a `ClientError` or a response ends the loop. */
  method Retry<T>(outcomes: seq<CallOutcome<T>>, budget: nat) returns (result: Attempt<T>, calls: nat)
    ensures RetryRun(result, calls) == Retried(outcomes, budget)
  {
    var retry: nat := 0;
    var done := false;
    result, calls := Exhausted, 0;
    while !done && retry < budget
      invariant retry <= budget
      invariant !done ==> calls == retry && result == Exhausted
      invariant !done ==> RunFrom(outcomes, calls, budget - retry) == Retried(outcomes, budget)
      invariant done ==> RetryRun(result, calls) == Retried(outcomes, budget)
      decreases budget - retry, if done then 0 else 1
    {
      var o := OutcomeAt(outcomes, calls);
      calls := calls + 1;
      match o
      case ConnErr =>
        retry := retry + 1;
      case ClientErr =>
        result, done := Refused, true;
      case Ok(v) =>
        result, done := Answered(v), true;
    }
  }
}

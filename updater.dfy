/** `updateResourceStatus`: send the update, and on failure retry after a
    backoff, as the source does it. The catch block reads its retry counter from
    the error it has just caught, and every attempt throws a fresh error, so the
    counter is 0 on every failure: each retry waits 1000 ms, and as long as
    `maxRetries >= 1` a failing update is retried again and again.

    The network is an oracle: attempt `i` succeeds exactly when `script[i]`
    holds. When the script runs out while the source would still retry, the
    outcome is `Retrying`: the source has not returned yet. */
module Updater {
  import opened JsValues
  import opened Configuration
  import opened Requests

  datatype Outcome = Succeeded | GaveUp | Retrying

  /** The attempt that first succeeds, or `|script|` if none does. */
  function FirstSuccess(script: seq<bool>): (k: nat)
    ensures k <= |script|
  {
    FirstWhere(script, ok => ok)
  }

  /** How an update ends against `script`. With `maxRetries <= 0` the first
      attempt decides; otherwise only a success ends it. */
  function RetryOutcome(script: seq<bool>, maxRetries: int): Outcome {
    if |script| == 0 then Retrying
    else if maxRetries <= 0 then (if script[0] then Succeeded else GaveUp)
    else if FirstSuccess(script) < |script| then Succeeded
    else Retrying
  }

  /** How many attempts an update makes against `script`. */
  function RetryAttempts(script: seq<bool>, maxRetries: int): nat {
    if |script| == 0 then 0
    else if maxRetries <= 0 then 1
    else if FirstSuccess(script) < |script| then FirstSuccess(script) + 1
    else |script|
  }

  /** Sends `UpdateRequest(c, rec, now)` once per attempt. `sent` lists the
      requests, `delays` the backoff waits in milliseconds. */
  method UpdateResourceStatus(c: Config, rec: Record, now: string, script: seq<bool>)
    returns (outcome: Outcome, sent: seq<Request>, delays: seq<int>)
    ensures outcome == RetryOutcome(script, c.maxRetries)
    ensures |sent| == RetryAttempts(script, c.maxRetries)
    ensures forall j :: 0 <= j < |sent| ==> sent[j] == UpdateRequest(c, rec, now)
    ensures |delays| == if outcome == Retrying then |sent| else |sent| - 1
    ensures forall j :: 0 <= j < |delays| ==> delays[j] == 1000
  {
    sent, delays := [], [];
    var i := 0;
    while i < |script|
      invariant 0 <= i <= |script|
      invariant c.maxRetries <= 0 ==> i == 0
      invariant forall j :: 0 <= j < i ==> !script[j]
      invariant |sent| == i && forall j :: 0 <= j < i ==> sent[j] == UpdateRequest(c, rec, now)
      invariant |delays| == i && forall j :: 0 <= j < i ==> delays[j] == 1000
    {
      sent := sent + [UpdateRequest(c, rec, now)];
      if script[i] {
        FirstWhereIsUnique(script, ok => ok, i);
        return Succeeded, sent, delays;
      }
      // the catch block: `error.retryCount || 0` on the error just thrown
      var retryCount := 0;
      if retryCount < c.maxRetries {
        retryCount := retryCount + 1;
        delays := delays + [1000 * retryCount];
        i := i + 1;
      } else {
        return GaveUp, sent, delays;
      }
    }
    FirstWhereIsUnique(script, ok => ok, |script|);
    return Retrying, sent, delays;
  }

  /** A permanently failing update never stops: however many failures are
      scripted, every one of them is attempted and the update is still retrying. */
  lemma {:induction false} FailingUpdateNeverStops(n: nat, maxRetries: int)
    requires maxRetries >= 1
    ensures var script := seq(n, _ => false);
      RetryOutcome(script, maxRetries) == Retrying && RetryAttempts(script, maxRetries) == n
  {
    var script := seq(n, _ => false);
    FirstWhereIsUnique(script, ok => ok, n);
  }

  /** The default of two retries does not bound the attempts at three: four
      scripted failures are all attempted. */
  lemma DefaultRetriesExceedThreeAttempts()
    ensures RetryAttempts([false, false, false, false], 2) == 4
    ensures RetryOutcome([false, false, false, false], 2) == Retrying
  {
    FailingUpdateNeverStops(4, 2);
    assert seq(4, _ => false) == [false, false, false, false];
  }
}

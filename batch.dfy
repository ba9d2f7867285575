/** The per-item pipeline (`processResourceStatus`) and the batch driver
    (`processAllResources`). The query request of each item and the update
    attempts of each item are oracle outcomes given in advance; the random
    pacing delay is chosen nondeterministically within the range the source's
    formula can produce. Sleeping, clocks and console output are not modelled. */
module Batch {
  import opened JsValues
  import opened Configuration
  import opened Requests
  import opened StatusFields
  import opened Fetcher
  import opened Updater

  /** How one item ends: with a boolean result, or still inside the update's
      retry chain when its scripted outcomes run out. */
  datatype ItemResult = Done(success: bool) | Pending

  /** The result `processResourceStatus` produces for one item. */
  function ItemOutcome(c: Config, fetch: FetchOutcome, script: seq<bool>): ItemResult {
    match GetResourceInfo(fetch)
    case None => Done(false)
    case Some(rec) =>
      if HasTargetStatus(rec, c.candidates, c.target) then Done(true)
      else
        match RetryOutcome(script, c.maxRetries)
        case Succeeded => Done(true)
        case GaveUp => Done(false)
        case Retrying => Pending
  }

  /** `processResourceStatus`: fetch, check, update. Not found gives false and
      the record already at the target gives true, both without any update
      request; otherwise the update decides. The model's callees never throw,
      so the source's outer catch (reachable there only through the
      identifier's encoding) has no counterpart here. */
  method ProcessResourceStatus(c: Config, fetch: FetchOutcome, script: seq<bool>, now: string)
    returns (result: ItemResult, sent: seq<Request>, delays: seq<int>)
    ensures result == ItemOutcome(c, fetch, script)
    ensures GetResourceInfo(fetch).None? ==> result == Done(false) && sent == [] && delays == []
    ensures GetResourceInfo(fetch).Some? && HasTargetStatus(GetResourceInfo(fetch).value, c.candidates, c.target) ==>
      result == Done(true) && sent == [] && delays == []
    ensures GetResourceInfo(fetch).Some? && !HasTargetStatus(GetResourceInfo(fetch).value, c.candidates, c.target) ==>
      && |sent| == RetryAttempts(script, c.maxRetries)
      && (forall j :: 0 <= j < |sent| ==> sent[j] == UpdateRequest(c, GetResourceInfo(fetch).value, now))
      && |delays| == (if result.Pending? then |sent| else |sent| - 1)
      && result == match RetryOutcome(script, c.maxRetries)
                   case Succeeded => Done(true)
                   case GaveUp => Done(false)
                   case Retrying => Pending
    ensures forall j :: 0 <= j < |delays| ==> delays[j] == 1000
  {
    var info := GetResourceInfo(fetch);
    if info.None? {
      return Done(false), [], [];
    }
    if HasTargetStatus(info.value, c.candidates, c.target) {
      return Done(true), [], [];
    }
    var outcome;
    outcome, sent, delays := UpdateResourceStatus(c, info.value, now, script);
    result := match outcome
      case Succeeded => Done(true)
      case GaveUp => Done(false)
      case Retrying => Pending;
  }

  /** One entry of the run's results. Timestamps and durations are not modelled. */
  datatype UpdateRecord = UpdateRecord(identifier: string, success: bool)

  datatype RunSummary = RunSummary(total: nat, success: nat, failed: nat, details: seq<UpdateRecord>)

  function CountSuccesses(details: seq<UpdateRecord>): (n: nat)
    ensures n <= |details|
  {
    if |details| == 0 then 0
    else (if details[0].success then 1 else 0) + CountSuccesses(details[1..])
  }

  lemma {:induction false} CountSuccessesAppend(details: seq<UpdateRecord>, r: UpdateRecord)
    ensures CountSuccesses(details + [r]) == CountSuccesses(details) + (if r.success then 1 else 0)
    decreases |details|
  {
    if |details| > 0 {
      assert (details + [r])[1..] == details[1..] + [r];
      CountSuccessesAppend(details[1..], r);
    }
  }

  /** `Array.prototype.indexOf`: the first position holding `x`, or -1. */
  function IndexOf(ids: seq<string>, x: string): (r: int)
    ensures -1 <= r < |ids|
    ensures r == -1 <==> x !in ids
    ensures r >= 0 ==> ids[r] == x && forall j :: 0 <= j < r ==> ids[j] != x
  {
    if |ids| == 0 then -1
    else if ids[0] == x then 0
    else var r := IndexOf(ids[1..], x); if r == -1 then -1 else r + 1
  }

  /** The pacing test of the driver after item `i`: the first position of that
      identifier is before the last position of the list. */
  predicate PausesAfter(ids: seq<string>, i: nat)
    requires i < |ids|
  {
    IndexOf(ids, ids[i]) < |ids| - 1
  }

  /** The offset `Math.floor(Math.random() * span)` can take: `0 <= k < span`
      for a positive span, `span <= k <= 0` otherwise. */
  predicate OffsetInRange(k: int, span: int) {
    if span > 0 then 0 <= k < span else span <= k <= 0
  }

  /** A pacing delay `minDelay + k`: below `maxDelay` when the range is proper,
      between `maxDelay` and `minDelay` otherwise. */
  predicate DelayInRange(d: int, minDelay: int, maxDelay: int) {
    if maxDelay > minDelay then minDelay <= d < maxDelay else maxDelay <= d <= minDelay
  }

  /** The entries of `details` record, in input order, the finished results of
      the first `|details|` items. */
  ghost predicate RecordsItems(c: Config, ids: seq<string>, fetches: seq<FetchOutcome>,
                               scripts: seq<seq<bool>>, details: seq<UpdateRecord>)
    requires |fetches| == |ids| && |scripts| == |ids|
  {
    && |details| <= |ids|
    && forall i :: 0 <= i < |details| ==>
         details[i].identifier == ids[i] && ItemOutcome(c, fetches[i], scripts[i]) == Done(details[i].success)
  }

  lemma RecordsItemsExtend(c: Config, ids: seq<string>, fetches: seq<FetchOutcome>,
                            scripts: seq<seq<bool>>, details: seq<UpdateRecord>, entry: UpdateRecord)
    requires |fetches| == |ids| && |scripts| == |ids|
    requires RecordsItems(c, ids, fetches, scripts, details) && |details| < |ids|
    requires entry.identifier == ids[|details|]
    requires ItemOutcome(c, fetches[|details|], scripts[|details|]) == Done(entry.success)
    ensures RecordsItems(c, ids, fetches, scripts, details + [entry])
  {
  }

  /** `pauses[i]` is the pacing step after item `i`: present exactly when the
      driver pauses there, and then in the delay range. */
  predicate PacesItems(c: Config, ids: seq<string>, pauses: seq<Option<int>>)
    requires |pauses| <= |ids|
  {
    forall i :: 0 <= i < |pauses| ==>
      && (pauses[i].Some? <==> PausesAfter(ids, i))
      && (pauses[i].Some? ==> DelayInRange(pauses[i].value, c.minDelay, c.maxDelay))
  }

  lemma PacesItemsExtend(c: Config, ids: seq<string>, pauses: seq<Option<int>>, pause: Option<int>)
    requires |pauses| < |ids| && PacesItems(c, ids, pauses)
    requires pause.Some? <==> PausesAfter(ids, |pauses|)
    requires pause.Some? ==> DelayInRange(pause.value, c.minDelay, c.maxDelay)
    ensures PacesItems(c, ids, pauses + [pause])
  {
  }

  /** The pacing step after item `i`: a delay of `minDelay` plus a random offset
      when the first position of the identifier is before the last position. */
  method Pace(c: Config, ids: seq<string>, i: nat) returns (pause: Option<int>)
    requires i < |ids|
    ensures pause.Some? <==> PausesAfter(ids, i)
    ensures pause.Some? ==> DelayInRange(pause.value, c.minDelay, c.maxDelay)
  {
    if IndexOf(ids, ids[i]) < |ids| - 1 {
      var span := c.maxDelay - c.minDelay;
      assert OffsetInRange(0, span);
      var k :| OffsetInRange(k, span);
      OffsetGivesDelayInRange(c.minDelay, c.maxDelay, k);
      pause := Some(c.minDelay + k);
    } else {
      pause := None;
    }
  }

  /** `processAllResources` over `ids`, with the query outcome and the scripted
      update attempts of each item. `completed` is false when some item's update
      is still retrying at the end of its script: the source never gets past
      that item, and the summary lists the items before it. `pauses[i]` is the
      pacing delay after item `i`, if any. */
  method ProcessAllResources(c: Config, ids: seq<string>, fetches: seq<FetchOutcome>,
                             scripts: seq<seq<bool>>, now: string)
    returns (summary: RunSummary, completed: bool, pauses: seq<Option<int>>)
    requires |fetches| == |ids| && |scripts| == |ids|
    ensures summary.total == |ids|
    ensures RecordsItems(c, ids, fetches, scripts, summary.details)
    ensures completed <==> |summary.details| == |ids|
    ensures !completed ==> ItemOutcome(c, fetches[|summary.details|], scripts[|summary.details|]) == Pending
    ensures summary.success == CountSuccesses(summary.details)
    ensures summary.success + summary.failed == |summary.details|
    ensures |pauses| == |summary.details|
    ensures forall i :: 0 <= i < |pauses| ==> (pauses[i].Some? <==> PausesAfter(ids, i))
    ensures forall i :: 0 <= i < |pauses| && pauses[i].Some? ==>
      DelayInRange(pauses[i].value, c.minDelay, c.maxDelay)
  {
    var successCount, failCount := 0, 0;
    var results: seq<UpdateRecord> := [];
    pauses := [];
    var i := 0;
    while i < |ids|
      invariant 0 <= i <= |ids|
      invariant |results| == i && |pauses| == i
      invariant RecordsItems(c, ids, fetches, scripts, results)
      invariant successCount == CountSuccesses(results) && successCount + failCount == i
      invariant PacesItems(c, ids, pauses)
    {
      var result, _, _ := ProcessResourceStatus(c, fetches[i], scripts[i], now);
      if result.Pending? {
        return RunSummary(|ids|, successCount, failCount, results), false, pauses;
      }
      var entry := UpdateRecord(ids[i], result.success);
      CountSuccessesAppend(results, entry);
      RecordsItemsExtend(c, ids, fetches, scripts, results, entry);
      results := results + [entry];
      if result.success {
        successCount := successCount + 1;
      } else {
        failCount := failCount + 1;
      }
      var pause := Pace(c, ids, i);
      PacesItemsExtend(c, ids, pauses, pause);
      pauses := pauses + [pause];
      i := i + 1;
    }
    return RunSummary(|ids|, successCount, failCount, results), true, pauses;
  }

  /** Every item but the last is followed by a pause; the last one is too exactly
      when its identifier already occurred earlier in the list. */
  lemma PausesAfterEveryButLast(ids: seq<string>)
    ensures forall i :: 0 <= i < |ids| - 1 ==> PausesAfter(ids, i)
    ensures |ids| > 0 ==> (PausesAfter(ids, |ids| - 1) <==> ids[|ids| - 1] in ids[..|ids| - 1])
  {
    if |ids| > 0 {
      var last := |ids| - 1;
      var r := IndexOf(ids, ids[last]);
      if ids[last] in ids[..last] {
        var j :| 0 <= j < last && ids[..last][j] == ids[last];
        assert ids[j] == ids[last];
      } else {
        assert r == last;
      }
    }
  }

  /** With distinct identifiers there are exactly `n - 1` pauses: after every
      item but the last. */
  lemma DistinctIdsPauseBetweenItems(ids: seq<string>)
    requires forall i, j :: 0 <= i < j < |ids| ==> ids[i] != ids[j]
    ensures forall i :: 0 <= i < |ids| ==> (PausesAfter(ids, i) <==> i < |ids| - 1)
  {
    PausesAfterEveryButLast(ids);
    if |ids| > 0 {
      assert ids[|ids| - 1] !in ids[..|ids| - 1];
    }
  }

  /** A repeated identifier makes the driver pause after the final item: two
      items, two pauses. */
  lemma RepeatedLastIdPausesAfterEnd()
    ensures PausesAfter(["A", "A"], 0) && PausesAfter(["A", "A"], 1)
  {
  }

  /** Every pacing offset the formula yields gives a delay in range; a proper
      range never reaches `maxDelay`. */
  lemma OffsetGivesDelayInRange(minDelay: int, maxDelay: int, k: int)
    requires OffsetInRange(k, maxDelay - minDelay)
    ensures DelayInRange(minDelay + k, minDelay, maxDelay)
    ensures maxDelay > minDelay ==> minDelay + k < maxDelay
    ensures maxDelay <= minDelay ==> minDelay + k <= minDelay
  {
  }

  /** A body listing one record whose `status` already is the target: the item
      succeeds without any update, whatever the update attempts would do. */
  lemma AlreadyActiveNeedsNoUpdate(c: Config, script: seq<bool>)
    requires c.candidates == DEFAULT_CANDIDATES && c.target == STATUS_MAP_ACTIVE
    ensures var rec := map["id" := Str("A"), "status" := Str(STATUS_MAP_ACTIVE)];
      ItemOutcome(c, Body(ListBody("items", [Obj(rec)])), script) == Done(true)
  {
    var rec := map["id" := Str("A"), "status" := Str(STATUS_MAP_ACTIVE)];
    ListBodyRoundTrip("items", [Obj(rec)]);
    StatusValueAt(rec, c.candidates, 0);
  }

  /** A record whose status lives under `state` and differs from the target is
      updated, and the update writes the target under `state`. */
  lemma PendingStateIsUpdatedUnderState(c: Config, now: string)
    requires c.candidates == DEFAULT_CANDIDATES && c.target == STATUS_MAP_ACTIVE
    ensures var rec := map["id" := Str("B"), "state" := Str("PENDING")];
      && !HasTargetStatus(rec, c.candidates, c.target)
      && StatusFieldName(rec, c.candidates) == "state"
      && UpdateRequest(c, rec, now).body["state"] == Str(STATUS_MAP_ACTIVE)
  {
    var rec := map["id" := Str("B"), "state" := Str("PENDING")];
    StatusValueAt(rec, c.candidates, 3);
    FirstWhereIsUnique(c.candidates, f => Present(rec, f), 3);
    StatusFieldNameIsFirstPresent(rec, c.candidates);
  }

  /** An array-valued status is at the target when the target is one of its
      elements. */
  lemma ArrayStatusContainingTarget(c: Config)
    requires c.candidates == DEFAULT_CANDIDATES && c.target == STATUS_MAP_ACTIVE
    ensures HasTargetStatus(map["status" := Arr([Str("PENDING"), Str(STATUS_MAP_ACTIVE)])], c.candidates, c.target)
  {
    StatusValueAt(map["status" := Arr([Str("PENDING"), Str(STATUS_MAP_ACTIVE)])], c.candidates, 0);
  }
}

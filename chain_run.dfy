/**
 * The semantics of one run of a request chain (CommChainManager.java), as
 * values: the three run modes, what each mode does when the chain starts and
 * after a single completion, the aggregator's step, the invariant that every
 * reachable run state satisfies, and the properties that follow from it.
 *
 * Completions are serialised events (they arrive on one thread):
 * `Complete(mode, n, r, i, ok)` is request `i`, started and not yet completed,
 * reporting `ok` to the run's aggregator over a list of `n` requests.
 */
module ChainRun {

  /** The three run modes (CommChainManager.MODE). */
  datatype Mode = Sequence | SequenceContinue | Overall

  /** What a mode does after one completion that did not end the run. */
  datatype Reaction = StartRequest(index: nat) | FireChain(success: bool) | Wait

  /**
   * One run. `allSuccess` and `runIndex` are the aggregator's two fields; the
   * other fields are its history: the requests started (in call order), the
   * requests started and not yet completed, the flags reported (in arrival
   * order) and the flags passed to the chain-completion notification.
   */
  datatype Run = Run(
    started: seq<nat>,
    pending: set<nat>,
    reported: seq<bool>,
    allSuccess: bool,
    runIndex: nat,
    fired: seq<bool>)

  /** The indices 0, 1, ..., m - 1, in increasing order. */
  function Iota(m: nat): (s: seq<nat>)
    ensures |s| == m
    ensures forall k :: 0 <= k < m ==> s[k] == k
  {
    if m == 0 then [] else Iota(m - 1) + [m - 1]
  }

  /** The set of indices below m. */
  function Below(m: nat): (s: set<nat>)
    ensures forall j: int :: j in s <==> 0 <= j < m
  {
    if m == 0 then {} else Below(m - 1) + {m - 1}
  }

  /** The logical AND of a sequence of flags. */
  predicate AllSucceeded(flags: seq<bool>)
  {
    false !in flags
  }

  /**
   * onStartRunRequestChain: the requests each mode starts, in call order. The
   * sequential modes address element 0 unconditionally, so they need a
   * non-empty list.
   */
  function BeginStarts(mode: Mode, n: nat): seq<nat>
    requires mode != Overall ==> n > 0
  {
    if mode == Overall then Iota(n) else [0]
  }

  /** A fresh run: a new aggregator (count 0, flag true) and the first starts. */
  function Begin(mode: Mode, n: nat): Run
    requires mode != Overall ==> n > 0
  {
    Run(BeginStarts(mode, n), if mode == Overall then Below(n) else {0}, [], true, 0, [])
  }

  /** onRunSingleRequestComplete(next, ok) of each mode, over a list of n requests. */
  function OnSingle(mode: Mode, n: nat, next: nat, ok: bool): Reaction
  {
    match mode
    case Sequence =>
      if !ok then FireChain(ok)
      else if next < n then StartRequest(next)
      else Wait
    case SequenceContinue =>
      if next < n then StartRequest(next) else Wait
    case Overall =>
      Wait
  }

  /** The aggregator's bookkeeping for request `i` reporting `ok`: AND the flag in, count the completion. */
  function Record(r: Run, i: nat, ok: bool): Run
  {
    r.(pending := r.pending - {i}, reported := r.reported + [ok],
       allSuccess := r.allSuccess && ok, runIndex := r.runIndex + 1)
  }

  /**
   * What follows the bookkeeping, over a list of n requests: notify every
   * subscriber with the AND of the flags once the count reaches the list size
   * (`>=`), or else hand the count and the last flag `ok` to the mode.
   */
  function React(mode: Mode, n: nat, r: Run, ok: bool): Run
  {
    if r.runIndex >= n then
      r.(fired := r.fired + [r.allSuccess])
    else
      match OnSingle(mode, n, r.runIndex, ok)
      case StartRequest(j) => r.(started := r.started + [j], pending := r.pending + {j})
      case FireChain(s) => r.(fired := r.fired + [s])
      case Wait => r
  }

  /** The mode's reaction never touches the flags or the count. */
  lemma ReactKeepsRecord(mode: Mode, n: nat, r: Run, ok: bool)
    ensures React(mode, n, r, ok).reported == r.reported
    ensures React(mode, n, r, ok).runIndex == r.runIndex
    ensures React(mode, n, r, ok).allSuccess == r.allSuccess
  {
  }

  /** The reaction either starts one request or fires once, never both. */
  lemma ReactStartsOrFires(mode: Mode, n: nat, r: Run, ok: bool)
    ensures React(mode, n, r, ok).started == r.started || React(mode, n, r, ok).fired == r.fired
    ensures |React(mode, n, r, ok).started| <= |r.started| + 1
    ensures |React(mode, n, r, ok).fired| <= |r.fired| + 1
  {
  }

  /** The aggregator's onRequestComplete for request `i` reporting `ok`. */
  function Complete(mode: Mode, n: nat, r: Run, i: nat, ok: bool): Run
  {
    React(mode, n, Record(r, i, ok), ok)
  }

  /**
   * What each mode answers to a completion that did not end the run: only the
   * sequential modes start a request, and only the next one in the list (Sequence
   * only after a success); only Sequence ends a run early, after a failure, and
   * then with false. Overall always waits.
   */
  lemma OnSingleCases(mode: Mode, n: nat, next: nat, ok: bool)
    ensures OnSingle(mode, n, next, ok).StartRequest? <==> mode != Overall && (mode == Sequence ==> ok) && next < n
    ensures OnSingle(mode, n, next, ok).StartRequest? ==> OnSingle(mode, n, next, ok).index == next
    ensures OnSingle(mode, n, next, ok).FireChain? <==> mode == Sequence && !ok
    ensures OnSingle(mode, n, next, ok).FireChain? ==> !OnSingle(mode, n, next, ok).success
  {
  }

  /**
   * The aggregator's step keeps its two fields in step with the history: the
   * count is the number of flags reported and the flag is their AND; the request
   * leaves flight; and the notification fires, with that AND, exactly once the
   * count reaches the list size.
   */
  lemma CompleteSteps(mode: Mode, n: nat, r: Run, i: nat, ok: bool)
    requires r.runIndex == |r.reported| && r.allSuccess == AllSucceeded(r.reported)
    ensures Complete(mode, n, r, i, ok).reported == r.reported + [ok]
    ensures Complete(mode, n, r, i, ok).runIndex == |Complete(mode, n, r, i, ok).reported|
    ensures Complete(mode, n, r, i, ok).allSuccess == AllSucceeded(r.reported + [ok])
    ensures i !in Complete(mode, n, r, i, ok).pending || OnSingle(mode, n, r.runIndex + 1, ok) == StartRequest(i)
    ensures r.runIndex + 1 >= n ==> Complete(mode, n, r, i, ok).fired == r.fired + [AllSucceeded(r.reported + [ok])]
    ensures r.runIndex + 1 < n ==> |Complete(mode, n, r, i, ok).fired| == |r.fired| + (if mode == Sequence && !ok then 1 else 0)
  {
  }

  /** A Sequence run is over once every request succeeded or one failed. */
  predicate SequenceOver(n: nat, reported: seq<bool>)
  {
    |reported| == n || (|reported| > 0 && !reported[|reported| - 1])
  }

  /** Sequence mode: all but the last flag are true; at most one request is in flight. */
  ghost predicate SequenceInv(n: nat, r: Run)
  {
    var k := |r.reported|;
    && n > 0
    && (forall j :: 0 <= j < k - 1 ==> r.reported[j])
    && (SequenceOver(n, r.reported) ==> r.started == Iota(k) && r.pending == {} && r.fired == [r.allSuccess])
    && (!SequenceOver(n, r.reported) ==> r.started == Iota(k + 1) && r.pending == {k} && r.fired == [])
  }

  /** SequenceContinue mode: requests run one at a time, in index order. */
  ghost predicate ContinueInv(n: nat, r: Run)
  {
    var k := |r.reported|;
    && n > 0
    && (k < n ==> r.started == Iota(k + 1) && r.pending == {k} && r.fired == [])
    && (k == n ==> r.started == Iota(n) && r.pending == {} && r.fired == [r.allSuccess])
  }

  /** Overall mode: everything started at once; completions in any order. */
  ghost predicate OverallInv(n: nat, r: Run)
  {
    var k := |r.reported|;
    && r.started == Iota(n)
    && r.pending <= Below(n)
    && |r.pending| == n - k
    && r.fired == (if 0 < k == n then [r.allSuccess] else [])
  }

  /** What holds of every run state reachable from `Begin` by `Complete` steps. */
  ghost predicate Inv(mode: Mode, n: nat, r: Run)
  {
    && r.runIndex == |r.reported|
    && |r.reported| <= n
    && r.allSuccess == AllSucceeded(r.reported)
    && match mode
       case Sequence => SequenceInv(n, r)
       case SequenceContinue => ContinueInv(n, r)
       case Overall => OverallInv(n, r)
  }

  lemma {:induction false} BelowSize(m: nat)
    ensures |Below(m)| == m
  {
    if m > 0 {
      BelowSize(m - 1);
    }
  }

  /** A fresh run satisfies the invariant. */
  lemma BeginEstablishes(mode: Mode, n: nat)
    requires mode != Overall ==> n > 0
    ensures Inv(mode, n, Begin(mode, n))
  {
    if mode == Overall {
      BelowSize(n);
    } else {
      assert BeginStarts(mode, n) == Iota(1);
    }
  }

  /**
   * Only started requests are in flight, and they are requests of the list; a
   * request that has not completed has index at least the aggregator's count
   * in the sequential modes.
   */
  lemma PendingWereStarted(mode: Mode, n: nat, r: Run)
    requires Inv(mode, n, r)
    ensures forall j :: j in r.pending ==> j in r.started && j < n
  {
    forall j | j in r.pending ensures j in r.started && j < n {
      assert r.started[j] == j;
    }
  }

  /** Sequence mode: a completion of the request in flight keeps `SequenceInv`. */
  lemma SequenceCompletePreserves(n: nat, r: Run, i: nat, ok: bool)
    requires Inv(Sequence, n, r) && i in r.pending
    ensures Inv(Sequence, n, Complete(Sequence, n, r, i, ok))
  {
  }

  /** SequenceContinue mode: a completion of the request in flight keeps `ContinueInv`. */
  lemma ContinueCompletePreserves(n: nat, r: Run, i: nat, ok: bool)
    requires Inv(SequenceContinue, n, r) && i in r.pending
    ensures Inv(SequenceContinue, n, Complete(SequenceContinue, n, r, i, ok))
  {
  }

  /** Overall mode: a completion of any request in flight keeps `OverallInv`. */
  lemma OverallCompletePreserves(n: nat, r: Run, i: nat, ok: bool)
    requires Inv(Overall, n, r) && i in r.pending
    ensures Inv(Overall, n, Complete(Overall, n, r, i, ok))
  {
  }

  /** Every completion of a request in flight preserves the invariant. */
  lemma CompletePreserves(mode: Mode, n: nat, r: Run, i: nat, ok: bool)
    requires Inv(mode, n, r) && i in r.pending
    ensures Inv(mode, n, Complete(mode, n, r, i, ok))
  {
    match mode
    case Sequence => SequenceCompletePreserves(n, r, i, ok);
    case SequenceContinue => ContinueCompletePreserves(n, r, i, ok);
    case Overall => OverallCompletePreserves(n, r, i, ok);
  }

  /**
   * The notification fires at most once per run, and only when nothing is in
   * flight any more, so no later completion can reach the aggregator.
   */
  lemma FiresAtMostOnce(mode: Mode, n: nat, r: Run)
    requires Inv(mode, n, r)
    ensures |r.fired| <= 1
    ensures r.fired != [] ==> r.pending == {}
  {
  }

  /**
   * A run with nothing in flight has fired exactly once, with the AND of every
   * flag reported -- except an Overall run over an empty list, which starts
   * nothing and never fires.
   */
  lemma IdleRunFiredOnce(mode: Mode, n: nat, r: Run)
    requires Inv(mode, n, r) && r.pending == {}
    ensures mode == Overall && n == 0 ==> r.fired == []
    ensures !(mode == Overall && n == 0) ==> r.fired == [AllSucceeded(r.reported)]
    ensures mode != Sequence ==> |r.reported| == n
  {
  }

  /**
   * Sequence mode stops at the first failure: the failed request is the last
   * one that completed, the requests after it were never started, nothing is
   * in flight and the notification fired once with false.
   */
  lemma SequenceStopsAtFailure(n: nat, r: Run, j: nat)
    requires Inv(Sequence, n, r)
    requires j < |r.reported| && !r.reported[j]
    ensures j == |r.reported| - 1
    ensures r.started == Iota(j + 1)
    ensures forall m :: j < m < n ==> m !in r.started
    ensures r.pending == {}
    ensures r.fired == [false]
  {
  }

  /** The request at the aggregator's count reports its outcome. */
  function NextCompletion(mode: Mode, outcomes: seq<bool>, r: Run): Run
    requires r.runIndex < |outcomes|
  {
    Complete(mode, |outcomes|, r, r.runIndex, outcomes[r.runIndex])
  }

  /**
   * A whole run in a sequential mode, where request j reports outcomes[j]:
   * the request in flight (the one at the aggregator's count) completes, until
   * nothing is in flight.
   */
  function Drive(mode: Mode, outcomes: seq<bool>, r: Run): Run
    decreases |outcomes| - r.runIndex
  {
    if r.runIndex < |outcomes| && r.runIndex in r.pending then
      Drive(mode, outcomes, NextCompletion(mode, outcomes, r))
    else
      r
  }

  /** The run started by `Begin` and driven to the end. */
  function SequentialRun(mode: Mode, outcomes: seq<bool>): Run
    requires mode != Overall && |outcomes| > 0
  {
    Drive(mode, outcomes, Begin(mode, |outcomes|))
  }

  /** One step of `Drive`: the invariant and the agreement with `outcomes` carry over. */
  lemma NextCompletionPreserves(mode: Mode, outcomes: seq<bool>, r: Run)
    requires Inv(mode, |outcomes|, r)
    requires r.reported == outcomes[..|r.reported|]
    requires r.runIndex < |outcomes| && r.runIndex in r.pending
    ensures Inv(mode, |outcomes|, NextCompletion(mode, outcomes, r))
    ensures NextCompletion(mode, outcomes, r).reported == outcomes[..r.runIndex + 1]
  {
    var k := r.runIndex;
    CompletePreserves(mode, |outcomes|, r, k, outcomes[k]);
    ReactKeepsRecord(mode, |outcomes|, Record(r, k, outcomes[k]), outcomes[k]);
    PrefixGrows(outcomes, k);
  }

  lemma PrefixGrows(outcomes: seq<bool>, k: nat)
    requires k < |outcomes|
    ensures outcomes[..k + 1] == outcomes[..k] + [outcomes[k]]
  {
  }

  /** A sequential run driven from any reachable state ends with nothing in flight. */
  lemma {:induction false} DriveReachesIdle(mode: Mode, outcomes: seq<bool>, r: Run)
    requires mode != Overall
    requires Inv(mode, |outcomes|, r)
    requires r.reported == outcomes[..|r.reported|]
    ensures Inv(mode, |outcomes|, Drive(mode, outcomes, r))
    ensures Drive(mode, outcomes, r).pending == {}
    ensures Drive(mode, outcomes, r).reported == outcomes[..|Drive(mode, outcomes, r).reported|]
    decreases |outcomes| - r.runIndex
  {
    if r.runIndex < |outcomes| && r.runIndex in r.pending {
      NextCompletionPreserves(mode, outcomes, r);
      DriveReachesIdle(mode, outcomes, NextCompletion(mode, outcomes, r));
    }
  }

  /**
   * Sequence mode, first failure at k: requests 0..k are started in order,
   * none after k, and the notification fires once with false.
   */
  lemma SequenceRunStopsAtFirstFailure(outcomes: seq<bool>, k: nat)
    requires k < |outcomes| && !outcomes[k]
    requires forall j :: 0 <= j < k ==> outcomes[j]
    ensures SequentialRun(Sequence, outcomes).started == Iota(k + 1)
    ensures SequentialRun(Sequence, outcomes).reported == outcomes[..k + 1]
    ensures SequentialRun(Sequence, outcomes).fired == [false]
  {
    var n := |outcomes|;
    BeginEstablishes(Sequence, n);
    DriveReachesIdle(Sequence, outcomes, Begin(Sequence, n));
    var f := SequentialRun(Sequence, outcomes);
    var m := |f.reported|;
    assert 0 < m <= n;
    assert f.reported[m - 1] == outcomes[m - 1];
    assert k >= m - 1 by {
      assert forall j :: 0 <= j < m - 1 ==> outcomes[j] == f.reported[j];
    }
    assert m - 1 == k;
  }

  /** Sequence mode, every request succeeds: all start in order, fire true once. */
  lemma SequenceRunAllSucceed(outcomes: seq<bool>)
    requires |outcomes| > 0 && AllSucceeded(outcomes)
    ensures SequentialRun(Sequence, outcomes).started == Iota(|outcomes|)
    ensures SequentialRun(Sequence, outcomes).fired == [true]
  {
    var n := |outcomes|;
    BeginEstablishes(Sequence, n);
    DriveReachesIdle(Sequence, outcomes, Begin(Sequence, n));
    var f := SequentialRun(Sequence, outcomes);
    var m := |f.reported|;
    assert 0 < m;
    assert f.reported[m - 1] == outcomes[m - 1];
    assert m == n;
  }

  /**
   * SequenceContinue mode: every request starts exactly once, in order, and the
   * notification fires once with the AND of all outcomes.
   */
  lemma ContinueRunStartsAll(outcomes: seq<bool>)
    requires |outcomes| > 0
    ensures SequentialRun(SequenceContinue, outcomes).started == Iota(|outcomes|)
    ensures SequentialRun(SequenceContinue, outcomes).reported == outcomes
    ensures SequentialRun(SequenceContinue, outcomes).fired == [AllSucceeded(outcomes)]
  {
    var n := |outcomes|;
    BeginEstablishes(SequenceContinue, n);
    DriveReachesIdle(SequenceContinue, outcomes, Begin(SequenceContinue, n));
    var f := SequentialRun(SequenceContinue, outcomes);
    assert |f.reported| == n;
    assert outcomes[..n] == outcomes;
  }

  /** `order` lists every request index below n exactly once. */
  predicate IsOrderOf(order: seq<nat>, n: nat)
  {
    && |order| == n
    && (forall t :: 0 <= t < |order| ==> order[t] < n)
    && (forall a, b :: 0 <= a < b < |order| ==> order[a] != order[b])
  }

  /** The flags of the requests completing in `order`, request j reporting outcomes[j]. */
  function Reports(order: seq<nat>, outcomes: seq<bool>): (flags: seq<bool>)
    requires forall t :: 0 <= t < |order| ==> order[t] < |outcomes|
    ensures |flags| == |order|
    ensures forall t :: 0 <= t < |order| ==> flags[t] == outcomes[order[t]]
  {
    if order == [] then [] else [outcomes[order[0]]] + Reports(order[1..], outcomes)
  }

  /** An Overall run in which the requests complete in `order`, request j reporting outcomes[j]. */
  function OverallDrive(outcomes: seq<bool>, order: seq<nat>, r: Run): Run
    requires forall t :: 0 <= t < |order| ==> order[t] < |outcomes|
    decreases |order|
  {
    if order == [] then r
    else OverallDrive(outcomes, order[1..], Complete(Overall, |outcomes|, r, order[0], outcomes[order[0]]))
  }

  /** A whole Overall run, started by `Begin` and completed in `order`. */
  function OverallRun(outcomes: seq<bool>, order: seq<nat>): Run
    requires IsOrderOf(order, |outcomes|)
  {
    OverallDrive(outcomes, order, Begin(Overall, |outcomes|))
  }

  /** One Overall completion: the invariant holds, nothing starts, request i leaves flight. */
  lemma OverallStep(n: nat, r: Run, i: nat, ok: bool)
    requires Inv(Overall, n, r) && i in r.pending
    ensures Inv(Overall, n, Complete(Overall, n, r, i, ok))
    ensures Complete(Overall, n, r, i, ok).started == r.started
    ensures Complete(Overall, n, r, i, ok).pending == r.pending - {i}
    ensures Complete(Overall, n, r, i, ok).reported == r.reported + [ok]
  {
    CompletePreserves(Overall, n, r, i, ok);
  }

  /**
   * Overall completions never start a request, and they append the flags in
   * completion order.
   */
  lemma {:induction false} OverallDriveRecords(outcomes: seq<bool>, order: seq<nat>, r: Run)
    requires forall t :: 0 <= t < |order| ==> order[t] < |outcomes|
    ensures OverallDrive(outcomes, order, r).started == r.started
    ensures OverallDrive(outcomes, order, r).reported == r.reported + Reports(order, outcomes)
    decreases |order|
  {
    if order == [] {
      assert r.reported + Reports(order, outcomes) == r.reported;
    } else {
      var ok := outcomes[order[0]];
      var r1 := Complete(Overall, |outcomes|, r, order[0], ok);
      assert r1.started == r.started && r1.reported == r.reported + [ok];
      OverallDriveRecords(outcomes, order[1..], r1);
      SnocThenAppend(r.reported, ok, Reports(order[1..], outcomes));
    }
  }

  lemma SnocThenAppend(a: seq<bool>, x: bool, b: seq<bool>)
    ensures (a + [x]) + b == a + ([x] + b)
  {
  }

  /** Every request that was in flight before and is not after is listed in `order`. */
  predicate LeftAmong(before: set<nat>, after: set<nat>, order: seq<nat>)
  {
    forall j :: j in before && j !in after ==> j in order
  }

  /**
   * Completing distinct requests in flight keeps the Overall invariant, and
   * every request that leaves flight on the way is one of them.
   */
  lemma {:induction false} OverallDriveCompletes(outcomes: seq<bool>, order: seq<nat>, r: Run)
    requires Inv(Overall, |outcomes|, r)
    requires forall t :: 0 <= t < |order| ==> order[t] in r.pending
    requires forall a, b :: 0 <= a < b < |order| ==> order[a] != order[b]
    ensures forall t :: 0 <= t < |order| ==> order[t] < |outcomes|
    ensures Inv(Overall, |outcomes|, OverallDrive(outcomes, order, r))
    ensures OverallDrive(outcomes, order, r).pending <= r.pending
    ensures LeftAmong(r.pending, OverallDrive(outcomes, order, r).pending, order)
    decreases |order|
  {
    PendingWereStarted(Overall, |outcomes|, r);
    if order != [] {
      var i := order[0];
      var rest := order[1..];
      var r1 := Complete(Overall, |outcomes|, r, i, outcomes[i]);
      OverallStep(|outcomes|, r, i, outcomes[i]);
      forall t | 0 <= t < |rest| ensures rest[t] in r1.pending {
        assert rest[t] == order[t + 1] != order[0];
      }
      OverallDriveCompletes(outcomes, rest, r1);
      assert OverallDrive(outcomes, order, r) == OverallDrive(outcomes, rest, r1);
      forall j | j in rest ensures j in order {
        var t :| 0 <= t < |rest| && rest[t] == j;
        assert order[t + 1] == j;
      }
    }
  }

  /** A completion order of distinct requests, as many as the list, lists every request. */
  lemma OverallRunCovers(outcomes: seq<bool>, order: seq<nat>)
    requires IsOrderOf(order, |outcomes|)
    ensures forall j :: 0 <= j < |outcomes| ==> j in order
  {
    var r := Begin(Overall, |outcomes|);
    BeginEstablishes(Overall, |outcomes|);
    OverallDriveCompletes(outcomes, order, r);
    OverallDriveRecords(outcomes, order, r);
    var f := OverallDrive(outcomes, order, r);
    assert |f.pending| == 0;
    assert f.pending == {};
    OverallBeginsAll(|outcomes|);
    LeftFlight(order, |outcomes|, r.pending, f.pending);
  }

  /** An Overall run begins with every request in flight. */
  lemma OverallBeginsAll(n: nat)
    ensures Begin(Overall, n).pending == Below(n)
  {
  }

  lemma LeftFlight(order: seq<nat>, n: nat, before: set<nat>, after: set<nat>)
    requires before == Below(n) && after == {}
    requires LeftAmong(before, after, order)
    ensures forall j :: 0 <= j < n ==> j in order
  {
    forall j | 0 <= j < n ensures j in order {
      assert j in before;
    }
  }

  /**
   * Overall mode, whatever the completion order: every request is started once,
   * in list order, each reports exactly once, nothing stays in flight, and the
   * notification fires once with the AND of all outcomes -- or, over an empty
   * list, never.
   */
  lemma OverallRunFiresAnd(outcomes: seq<bool>, order: seq<nat>)
    requires IsOrderOf(order, |outcomes|)
    ensures OverallRun(outcomes, order).started == Iota(|outcomes|)
    ensures OverallRun(outcomes, order).pending == {}
    ensures OverallRun(outcomes, order).reported == Reports(order, outcomes)
    ensures |outcomes| > 0 ==> OverallRun(outcomes, order).fired == [AllSucceeded(outcomes)]
    ensures |outcomes| == 0 ==> OverallRun(outcomes, order).fired == []
  {
    var n := |outcomes|;
    var r := Begin(Overall, n);
    BeginEstablishes(Overall, n);
    OverallDriveCompletes(outcomes, order, r);
    OverallDriveRecords(outcomes, order, r);
    var f := OverallRun(outcomes, order);
    assert |f.pending| == 0;
    IdleRunFiredOnce(Overall, n, f);
    OverallRunCovers(outcomes, order);
    ReportsAllSucceeded(order, outcomes);
  }

  /** Reports that cover every request AND to the same flag as the outcomes themselves. */
  lemma ReportsAllSucceeded(order: seq<nat>, outcomes: seq<bool>)
    requires forall t :: 0 <= t < |order| ==> order[t] < |outcomes|
    requires forall j :: 0 <= j < |outcomes| ==> j in order
    ensures AllSucceeded(Reports(order, outcomes)) == AllSucceeded(outcomes)
  {
    var flags := Reports(order, outcomes);
    if false in outcomes {
      var j :| 0 <= j < |outcomes| && !outcomes[j];
      assert j in order;
      var t :| 0 <= t < |order| && order[t] == j;
      assert !flags[t];
    }
  }
}

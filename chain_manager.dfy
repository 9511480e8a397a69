/**
 * The chain manager (CommChainManager.java): an ordered list of requests, a
 * list of chain-completion subscribers, the active run mode, and the per-run
 * completion aggregator that the manager installs in every request.
 *
 * The class keeps the history of the current run in ghost fields and ties it,
 * together with the aggregator's two real fields, to the run semantics of
 * module ChainRun: `Valid()` says the run state satisfies `ChainRun.Inv`, and
 * every method states its effect on that state as a function of the old one.
 */
module CommChain {
  import opened Wrappers
  import opened CommRequest
  import opened ChainRun

  /** Handle of a caller-supplied chain-completion subscriber. */
  type SubscriberId = nat

  /** One call of a chain-completion subscriber, with the flag it received. */
  datatype ChainCall = ChainCall(subscriber: SubscriberId, success: bool)

  /** The calls made when every subscriber, in order, is told `success`. */
  function Broadcast(subscribers: seq<SubscriberId>, success: bool): (calls: seq<ChainCall>)
    ensures |calls| == |subscribers|
    ensures forall k :: 0 <= k < |subscribers| ==> calls[k] == ChainCall(subscribers[k], success)
  {
    if subscribers == [] then [] else [ChainCall(subscribers[0], success)] + Broadcast(subscribers[1..], success)
  }

  lemma BroadcastSnoc(subscribers: seq<SubscriberId>, last: SubscriberId, success: bool)
    ensures Broadcast(subscribers + [last], success) == Broadcast(subscribers, success) + [ChainCall(last, success)]
  {
  }

  /**
   * How many of the starts `ks` (positions in `requests`) start the request
   * object `o`; an object listed twice is counted at both positions.
   */
  ghost function StartsOf(requests: seq<BaseRequest<Aggregator>>, o: BaseRequest<Aggregator>, ks: seq<nat>): (c: nat)
    ensures c <= |ks|
  {
    if ks == [] then 0
    else StartsOf(requests, o, ks[..|ks| - 1]) + (if ks[|ks| - 1] < |requests| && requests[ks[|ks| - 1]] == o then 1 else 0)
  }

  lemma StartsOfAppend(requests: seq<BaseRequest<Aggregator>>, ks: seq<nat>, k: nat)
    ensures forall o :: StartsOf(requests, o, ks + [k]) == StartsOf(requests, o, ks) + StartsOf(requests, o, [k])
  {
    assert (ks + [k])[..|ks|] == ks;
  }

  /** What the aggregator does with one completion. */
  datatype Decision = NotifyChain(success: bool) | Delegate(nextIndex: nat, success: bool)

  /**
   * The per-run completion listener (the inner class IRequestComplete): it ANDs
   * the flags and counts the completions. The notification or the hand-over to
   * the mode is returned as a `Decision` for the manager to carry out.
   */
  class Aggregator {
    var allSuccess: bool
    var runIndex: nat

    constructor ()
      ensures allSuccess && runIndex == 0
    {
      allSuccess := true;
      runIndex := 0;
    }

    method OnRequestComplete(ok: bool, size: nat) returns (d: Decision)
      modifies this`allSuccess, this`runIndex
      ensures allSuccess == (old(allSuccess) && ok)
      ensures runIndex == old(runIndex) + 1
      ensures d == if runIndex >= size then NotifyChain(allSuccess) else Delegate(runIndex, ok)
    {
      allSuccess := allSuccess && ok;
      runIndex := runIndex + 1;
      if runIndex >= size {
        d := NotifyChain(allSuccess);
      } else {
        d := Delegate(runIndex, ok);
      }
    }
  }

  class ChainManager {
    var requests: seq<BaseRequest<Aggregator>>
    var subscribers: seq<SubscriberId>
    var mode: Mode
    /** The aggregator of the latest run; null before the first run. */
    var current: Aggregator?

    /** The mode and list size the latest run started with. */
    ghost var runMode: Mode
    ghost var runSize: nat
    /** The latest run's history: see ChainRun.Run. */
    ghost var started: seq<nat>
    ghost var pending: set<nat>
    ghost var reported: seq<bool>
    ghost var fired: seq<bool>
    /** Every subscriber call made so far, over all runs. */
    ghost var chainLog: seq<ChainCall>

    ghost function RunView(): Run
      reads this, current
      requires current != null
    {
      Run(started, pending, reported, current.allSuccess, current.runIndex, fired)
    }

    /** No request of the latest run is in flight. */
    ghost predicate Idle()
      reads this
    {
      pending == {}
    }

    /** Every request in the list has `agg` as its chain slot. */
    ghost predicate Installed(agg: Aggregator)
      reads this`requests, requests`chainNotify
    {
      forall k :: 0 <= k < |requests| ==> requests[k].chainNotify == Some(agg)
    }

    ghost predicate Valid()
      reads this, current, requests`chainNotify
    {
      && (current == null ==> pending == {})
      && (current != null ==>
            && Inv(runMode, runSize, RunView())
            && (pending != {} ==>
                  && |requests| == runSize
                  && mode == runMode
                  && Installed(current)))
    }

    /** A new manager: no requests, no subscribers, mode SEQUENCE. */
    constructor ()
      ensures Valid() && Idle()
      ensures requests == [] && subscribers == [] && mode == Sequence
      ensures current == null && chainLog == []
    {
      requests := [];
      subscribers := [];
      mode := Sequence;
      current := null;
      pending := {};
      chainLog := [];
    }

    /** Replaces the mode; the run in progress, if any, is over already. */
    method SetMode(m: Mode)
      requires Valid() && Idle()
      modifies this`mode
      ensures Valid() && mode == m
    {
      mode := m;
    }

    /** Appends a subscriber, without deduplication; `null` is ignored. */
    method AddRequestChainCompleteNotify(notify: Option<SubscriberId>)
      requires Valid()
      modifies this`subscribers
      ensures Valid()
      ensures notify.None? ==> subscribers == old(subscribers)
      ensures notify.Some? ==> subscribers == old(subscribers) + [notify.value]
    {
      if notify.Some? {
        subscribers := subscribers + [notify.value];
      }
    }

    /** Calls every subscriber, in registration order, with `success`. */
    method RunRequestChainCompleteNotify(success: bool)
      modifies this`chainLog, this`fired
      ensures chainLog == old(chainLog) + Broadcast(subscribers, success)
      ensures fired == old(fired) + [success]
    {
      var subs := subscribers;
      var k := 0;
      while k < |subs|
        invariant 0 <= k <= |subs|
        invariant chainLog == old(chainLog) + Broadcast(subs[..k], success)
        invariant fired == old(fired)
      {
        assert subs[..k + 1] == subs[..k] + [subs[k]];
        BroadcastSnoc(subs[..k], subs[k], success);
        chainLog := chainLog + [ChainCall(subs[k], success)];
        k := k + 1;
      }
      assert subs[..k] == subs;
      fired := fired + [success];
    }

    /** Appends a request at the end of the list; `null` is ignored. */
    method AddRequest(request: Option<BaseRequest<Aggregator>>)
      requires Valid() && Idle()
      modifies this`requests
      ensures Valid()
      ensures request.None? ==> requests == old(requests)
      ensures request.Some? ==> requests == old(requests) + [request.value]
    {
      if request.Some? {
        requests := requests + [request.value];
      }
    }

    /** Starts request k and records it as started and in flight. */
    method StartRequest(k: nat)
      requires k < |requests|
      modifies {requests[k]}`runCount, this`started, this`pending
      ensures started == old(started) + [k]
      ensures pending == old(pending) + {k}
      ensures forall o :: o in requests ==> o.runCount == old(o.runCount) + StartsOf(requests, o, [k])
    {
      requests[k].RunRequest();
      started := started + [k];
      pending := pending + {k};
    }

    /** onStartRunRequestChain of the active mode. */
    method StartChain()
      requires mode != Overall ==> |requests| > 0
      requires started == [] && pending == {}
      modifies requests`runCount, this`started, this`pending
      ensures started == BeginStarts(mode, |requests|)
      ensures pending == if mode == Overall then Below(|requests|) else {0}
      ensures forall o :: o in requests ==> o.runCount == old(o.runCount) + StartsOf(requests, o, started)
    {
      match mode {
        case Sequence =>
          StartRequest(0);
        case SequenceContinue =>
          StartRequest(0);
        case Overall =>
          var k := 0;
          while k < |requests|
            invariant 0 <= k <= |requests|
            invariant started == Iota(k)
            invariant pending == Below(k)
            invariant forall o :: o in requests ==> o.runCount == old(o.runCount) + StartsOf(requests, o, started)
          {
            StartsOfAppend(requests, started, k);
            StartRequest(k);
            k := k + 1;
          }
      }
    }

    /** onRunSingleRequestComplete of the active mode. */
    method OnRunSingleRequestComplete(next: nat, ok: bool)
      modifies requests`runCount, this`started, this`pending, this`fired, this`chainLog
      ensures match OnSingle(mode, |requests|, next, ok)
        case StartRequest(j) =>
          started == old(started) + [j] && pending == old(pending) + {j}
          && fired == old(fired) && chainLog == old(chainLog)
        case FireChain(s) =>
          started == old(started) && pending == old(pending)
          && fired == old(fired) + [s] && chainLog == old(chainLog) + Broadcast(subscribers, s)
        case Wait =>
          started == old(started) && pending == old(pending)
          && fired == old(fired) && chainLog == old(chainLog)
      ensures forall o :: o in requests ==> o.runCount == old(o.runCount) + StartsOf(requests, o, started[|old(started)|..])
    {
      match mode {
        case Sequence =>
          if !ok {
            RunRequestChainCompleteNotify(ok);
          } else if next < |requests| {
            StartRequest(next);
          }
        case SequenceContinue =>
          if next < |requests| {
            StartRequest(next);
          }
        case Overall =>
      }
      assert started == old(started) || started[|old(started)|..] == [next];
    }

    /** Installs `agg` as the chain slot of every request in the list. */
    method InstallAggregator(agg: Aggregator)
      modifies requests`chainNotify
      ensures Installed(agg)
    {
      var k := 0;
      while k < |requests|
        invariant 0 <= k <= |requests|
        invariant forall j :: 0 <= j < k ==> requests[j].chainNotify == Some(agg)
      {
        requests[k].SetRequestChainFinalNotify(Some(agg));
        k := k + 1;
      }
    }

    /**
     * Starts a run: a fresh aggregator, installed as the chain slot of every
     * request, then the mode's start. The sequential modes need a request.
     */
    method RunRequestChain()
      requires Valid() && Idle()
      requires mode != Overall ==> |requests| > 0
      modifies this`current, this`runMode, this`runSize
      modifies this`started, this`pending, this`reported, this`fired
      modifies requests`chainNotify, requests`runCount
      ensures Valid()
      ensures fresh(current)
      ensures runMode == mode && runSize == |requests|
      ensures RunView() == Begin(mode, |requests|)
      ensures Installed(current)
      ensures forall o :: o in requests ==> o.runCount == old(o.runCount) + StartsOf(requests, o, started)
    {
      var agg := new Aggregator();
      InstallAggregator(agg);
      current := agg;
      runMode, runSize := mode, |requests|;
      started, pending, reported, fired := [], {}, [], [];
      StartChain();
      assert RunView() == Begin(mode, |requests|);
      BeginEstablishes(mode, |requests|);
    }

    /**
     * The manager's side of onRequestComplete: carries out the aggregator's
     * decision, given the count and flag it has just recorded and the flag
     * `ok` the request reported.
     */
    method Dispatch(d: Decision, ghost ok: bool)
      requires current != null && mode == runMode && |requests| == runSize
      requires d == if current.runIndex >= runSize then NotifyChain(current.allSuccess) else Delegate(current.runIndex, ok)
      modifies requests`runCount, this`started, this`pending, this`fired, this`chainLog
      ensures RunView() == React(runMode, runSize, old(RunView()), ok)
      ensures fired == old(fired) ==> chainLog == old(chainLog)
      ensures fired != old(fired) ==> chainLog == old(chainLog) + Broadcast(subscribers, fired[|fired| - 1])
      ensures |old(started)| <= |started|
      ensures forall o :: o in requests ==> o.runCount == old(o.runCount) + StartsOf(requests, o, started[|old(started)|..])
    {
      match d {
        case NotifyChain(s) =>
          RunRequestChainCompleteNotify(s);
        case Delegate(next, s) =>
          OnRunSingleRequestComplete(next, s);
      }
    }

    /**
     * Request i of the run finishes with flag ok and calls runCompleteAction:
     * its local observers, then the aggregator installed in it, which records
     * the flag and the count and notifies the subscribers or hands over to the
     * mode.
     */
    method CompleteAction(i: nat, ok: bool) returns (delivered: seq<Delivery<Aggregator>>)
      requires current != null && i < |requests| && requests[i].chainNotify == Some(current)
      requires mode == runMode && |requests| == runSize
      modifies this`started, this`pending, this`reported, this`fired, this`chainLog
      modifies current, requests`runCount
      ensures RunView() == Complete(runMode, runSize, old(RunView()), i, ok)
      ensures |delivered| == |requests[i].localNotify| + 1
      ensures forall k :: 0 <= k < |requests[i].localNotify| ==>
        delivered[k] == ToObserver(requests[i].localNotify[k], ok)
      ensures delivered[|delivered| - 1] == ToChain(current as Aggregator, ok)
      ensures fired == old(fired) ==> chainLog == old(chainLog)
      ensures fired != old(fired) ==> chainLog == old(chainLog) + Broadcast(subscribers, fired[|fired| - 1])
      ensures |old(started)| <= |started|
      ensures forall o :: o in requests ==> o.runCount == old(o.runCount) + StartsOf(requests, o, started[|old(started)|..])
    {
      ghost var before := RunView();
      var request := requests[i];
      delivered := request.RunCompleteAction(ok);
      var agg := request.chainNotify.value;
      var d := agg.OnRequestComplete(ok, |requests|);
      reported := reported + [ok];
      pending := pending - {i};
      assert RunView() == Record(before, i, ok);
      Dispatch(d, ok);
    }

    /**
     * A request in flight completes: `CompleteAction` takes the run one
     * `ChainRun.Complete` step further, and the run invariant still holds.
     */
    method RequestCompleted(i: nat, ok: bool) returns (delivered: seq<Delivery<Aggregator>>)
      requires Valid() && i in pending
      modifies this`started, this`pending, this`reported, this`fired, this`chainLog
      modifies current, requests`runCount
      ensures Valid()
      ensures current != null && i < |requests|
      ensures RunView() == Complete(runMode, runSize, old(RunView()), i, ok)
      ensures |delivered| == |requests[i].localNotify| + 1
      ensures forall k :: 0 <= k < |requests[i].localNotify| ==>
        delivered[k] == ToObserver(requests[i].localNotify[k], ok)
      ensures delivered[|delivered| - 1] == ToChain(current as Aggregator, ok)
      ensures fired == old(fired) ==> chainLog == old(chainLog)
      ensures fired != old(fired) ==> chainLog == old(chainLog) + Broadcast(subscribers, fired[|fired| - 1])
      ensures |old(started)| <= |started|
      ensures forall o :: o in requests ==> o.runCount == old(o.runCount) + StartsOf(requests, o, started[|old(started)|..])
    {
      ghost var before := RunView();
      PendingWereStarted(runMode, runSize, before);
      delivered := CompleteAction(i, ok);
      CompletePreserves(runMode, runSize, before, i, ok);
    }
  }
}

/**
 * The request abstraction (CommBaseRequest.java): a unit of asynchronous work
 * with a list of local completion observers and one chain-notification slot.
 *
 * Observers are callbacks supplied by the caller; the model identifies each by
 * an opaque handle and records the calls made to it. The slot is generic in the
 * type `A` of the listener that a chain manager installs there.
 */
module CommRequest {
  import opened Wrappers

  /** Handle of a caller-supplied completion observer. */
  type ObserverId = nat

  /** One call made by `RunCompleteAction`: who was called and with which flag. */
  datatype Delivery<A> = ToObserver(observer: ObserverId, ok: bool) | ToChain(target: A, ok: bool)

  class BaseRequest<A> {
    /** The local observers, in registration order (never null). */
    var localNotify: seq<ObserverId>
    /** The chain slot, overwritten by every chain run that owns this request. */
    var chainNotify: Option<A>
    /** How often `RunRequest` has been called: the abstract start hook. */
    ghost var runCount: nat

    constructor ()
      ensures localNotify == [] && chainNotify == None && runCount == 0
    {
      localNotify := [];
      chainNotify := None;
      runCount := 0;
    }

    /**
     * Starts the asynchronous work. The concrete work is not part of the model;
     * the only effect recorded is that the request was started.
     */
    method RunRequest()
      modifies this`runCount
      ensures runCount == old(runCount) + 1
    {
      runCount := runCount + 1;
    }

    /** Registers an observer at the end of the list; `null` is ignored. */
    method AddCompleteNotify(notify: Option<ObserverId>)
      modifies this`localNotify
      ensures notify.None? ==> localNotify == old(localNotify)
      ensures notify.Some? ==> localNotify == old(localNotify) + [notify.value]
    {
      if notify.Some? {
        localNotify := localNotify + [notify.value];
      }
    }

    /** Forgets every local observer; the chain slot is kept. */
    method ResetCompleteNotify()
      modifies this`localNotify
      ensures localNotify == []
    {
      localNotify := [];
    }

    /** Overwrites the chain slot: only the latest listener will be called. */
    method SetRequestChainFinalNotify(notify: Option<A>)
      modifies this`chainNotify
      ensures chainNotify == notify
    {
      chainNotify := notify;
    }

    /**
     * Signals completion with flag `ok`: every local observer in registration
     * order, then the chain slot once if it is set, all with the same flag.
     * Nothing is modified, so the observers stay registered for later runs.
     */
    method RunCompleteAction(ok: bool) returns (delivered: seq<Delivery<A>>)
      ensures |delivered| == |localNotify| + (if chainNotify.Some? then 1 else 0)
      ensures forall k :: 0 <= k < |localNotify| ==> delivered[k] == ToObserver(localNotify[k], ok)
      ensures chainNotify.Some? ==> delivered[|delivered| - 1] == ToChain(chainNotify.value, ok)
      ensures forall d :: d in delivered ==> d.ok == ok
    {
      delivered := [];
      var k := 0;
      while k < |localNotify|
        invariant 0 <= k <= |localNotify|
        invariant |delivered| == k
        invariant forall j :: 0 <= j < k ==> delivered[j] == ToObserver(localNotify[j], ok)
      {
        delivered := delivered + [ToObserver(localNotify[k], ok)];
        k := k + 1;
      }
      if chainNotify.Some? {
        delivered := delivered + [ToChain(chainNotify.value, ok)];
      }
    }
  }
}

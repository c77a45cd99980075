/**
 * Stand-ins for the objects the loader talks to but does not implement: the
 * Vert.x future it is handed, the real verticle it creates, and the HK2
 * service locator. Each records the calls made on it.
 */
module Collaborators {
  import opened Common
  import opened Binders

  /** A call made on a future. */
  datatype Signal = Completed | Failed(cause: Error)

  /** A Vert.x future: it records each complete() and fail(cause) call. */
  class Future {
    var signals: seq<Signal>

    constructor ()
      ensures signals == []
    {
      signals := [];
    }

    method Complete()
      modifies this
      ensures signals == old(signals) + [Completed]
    {
      signals := signals + [Completed];
    }

    method Fail(cause: Error)
      modifies this
      ensures signals == old(signals) + [Failed(cause)]
    {
      signals := signals + [Failed(cause)];
    }
  }

  /** What a verticle's start or stop does with the future it is given. */
  datatype Reaction =
    | Completes          // calls complete() and returns
    | FailsWith(cause: Error)  // calls fail(cause) and returns
    | Throws(cause: Error)     // throws without touching the future
    | Pending            // returns and signals later, outside this call

  /** The signals a reaction puts on the future during the call. */
  function Signals(r: Reaction): (s: seq<Signal>)
    ensures Completed in s <==> r == Completes
    ensures |s| <= 1
  {
    match r
    case Completes => [Completed]
    case FailsWith(e) => [Failed(e)]
    case _ => []
  }

  /** How the call ends. */
  function Ends(r: Reaction): (o: Outcome)
    ensures o.Threw? <==> r.Throws?
  {
    if r.Throws? then Threw(r.cause) else Normal
  }

  /** The behaviour of a real verticle class, as far as the loader can observe it. */
  datatype Behaviour = Behaviour(onStart: Reaction, onStop: Reaction)

  /**
   * A call made on a real verticle. A stop call also records whether the
   * locator its services came from had already been destroyed when the call
   * arrived.
   */
  datatype VerticleCall = InitCalled | StartCalled(future: Future) | StopCalled(future: Future, servicesDestroyed: bool)

  /**
   * The real verticle, created by the container of a locator; it records the
   * lifecycle calls it receives.
   */
  class RealVerticle {
    const behaviour: Behaviour
    /** The locator whose container instantiated this verticle and injected its services. */
    const locator: Locator
    var calls: seq<VerticleCall>

    constructor (behaviour: Behaviour, locator: Locator)
      ensures this.behaviour == behaviour && this.locator == locator && calls == []
    {
      this.behaviour := behaviour;
      this.locator := locator;
      calls := [];
    }

    method Init()
      modifies this
      ensures calls == old(calls) + [InitCalled]
    {
      calls := calls + [InitCalled];
    }

    method Start(future: Future) returns (o: Outcome)
      modifies this, future
      ensures calls == old(calls) + [StartCalled(future)]
      ensures future.signals == old(future.signals) + Signals(behaviour.onStart)
      ensures o == Ends(behaviour.onStart)
    {
      calls := calls + [StartCalled(future)];
      o := React(behaviour.onStart, future);
    }

    method Stop(future: Future) returns (o: Outcome)
      modifies this, future
      ensures calls == old(calls) + [StopCalled(future, old(locator.destroyed))]
      ensures future.signals == old(future.signals) + Signals(behaviour.onStop)
      ensures o == Ends(behaviour.onStop)
    {
      calls := calls + [StopCalled(future, locator.destroyed)];
      o := React(behaviour.onStop, future);
    }

    static method React(r: Reaction, future: Future) returns (o: Outcome)
      modifies future
      ensures future.signals == old(future.signals) + Signals(r)
      ensures o == Ends(r)
    {
      match r {
        case Completes => future.Complete();
        case FailsWith(e) => future.Fail(e);
        case _ =>
      }
      o := if r.Throws? then Threw(r.cause) else Normal;
    }
  }

  /** An HK2 service locator, recorded as the binders bound into it and whether it was destroyed. */
  class Locator {
    var bound: seq<Binder>
    var destroyed: bool

    /** ServiceLocatorFactory.create(null): a new, uncached locator. */
    constructor ()
      ensures bound == [] && !destroyed
    {
      bound := [];
      destroyed := false;
    }

    /** ServiceLocatorUtilities.bind(locator, binders). */
    method Bind(binders: seq<Binder>)
      modifies this
      ensures bound == old(bound) + binders && destroyed == old(destroyed)
    {
      bound := bound + binders;
    }

    /** ServiceLocatorFactory.destroy(locator). */
    method Destroy()
      modifies this
      ensures destroyed && bound == old(bound)
    {
      destroyed := true;
    }
  }
}

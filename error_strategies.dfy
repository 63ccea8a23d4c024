/** The consumer error strategies of UncleanShutdownBug/Program.cs: what the
    consumer should do with a delivery whose handler failed, and how a
    strategy that is being disposed lets the application shut down cleanly
    by handing every failed delivery back to the broker. */
module ErrorStrategies {
  import opened Primitives
  import opened Messages

  /** `PostExceptionAckStrategy`. */
  datatype PostExceptionAckStrategy = ShouldAck | ShouldNackWithoutRequeue | ShouldNackWithRequeue | DoNothing

  /** `ConsumerExecutionContext`: the failed delivery. */
  datatype ConsumerExecutionContext = ConsumerExecutionContext(body: Bytes, properties: MessageProperties, info: ReceivedInfo)

  /** A strategy's decision for one failed delivery. */
  type ErrorDecision = (ConsumerExecutionContext, Exception) -> PostExceptionAckStrategy

  /** `DoNothingErrorStrategy.HandleConsumerError`: whatever failed, leave
      the delivery alone. The strategy has no state, so its `Dispose` has
      nothing to change. */
  function DoNothingDecision(context: ConsumerExecutionContext, exception: Exception): (d: PostExceptionAckStrategy)
    ensures d == DoNothing
  {
    DoNothing
  }

  /** What `AllowCleanShutdownErrorStrategy.HandleConsumerError` returns:
      while disposing, a requeueing nack without consulting the default
      strategy; otherwise exactly the default strategy's decision. */
  function CleanShutdownDecision(disposing: bool, fallback: ErrorDecision,
                                 context: ConsumerExecutionContext, exception: Exception): (d: PostExceptionAckStrategy)
    ensures disposing ==> d == ShouldNackWithRequeue
    ensures !disposing ==> d == fallback(context, exception)
  {
    if disposing then ShouldNackWithRequeue else fallback(context, exception)
  }

  /** The calls a consumer makes on the strategy over its lifetime. */
  datatype StrategyEvent = HandleError(context: ConsumerExecutionContext, exception: Exception) | Dispose

  /** The `_disposing` flag after `events`, starting from `disposing`. */
  function DisposingAfter(disposing: bool, events: seq<StrategyEvent>): bool
  {
    if events == [] then disposing
    else DisposingAfter(disposing, events[..|events| - 1]) || events[|events| - 1].Dispose?
  }

  /** The flag starts false, is set by a `Dispose` and by nothing else, and
      is never reset. */
  lemma {:induction false} DisposingIffDisposed(events: seq<StrategyEvent>)
    ensures DisposingAfter(false, events) <==> exists i :: 0 <= i < |events| && events[i].Dispose?
    ensures DisposingAfter(true, events)
  {
    if events != [] {
      var init := events[..|events| - 1];
      DisposingIffDisposed(init);
      if exists i :: 0 <= i < |init| && init[i].Dispose? {
        var i :| 0 <= i < |init| && init[i].Dispose?;
        assert events[i] == init[i];
      }
      if exists i :: 0 <= i < |events| && events[i].Dispose? {
        var i :| 0 <= i < |events| && events[i].Dispose?;
        if i < |init| {
          assert init[i] == events[i];
        }
      }
    }
  }

  /** The decision for the error at position `i` of a lifetime: a requeueing
      nack if any `Dispose` came before it, otherwise the default strategy's
      decision. */
  lemma DecisionInLifetime(events: seq<StrategyEvent>, i: nat, fallback: ErrorDecision)
    requires i < |events| && events[i].HandleError?
    ensures var d := CleanShutdownDecision(DisposingAfter(false, events[..i]), fallback, events[i].context, events[i].exception);
      && ((exists j :: 0 <= j < i && events[j].Dispose?) ==> d == ShouldNackWithRequeue)
      && ((forall j :: 0 <= j < i ==> !events[j].Dispose?) ==> d == fallback(events[i].context, events[i].exception))
  {
    DisposingIffDisposed(events[..i]);
    if exists j :: 0 <= j < i && events[j].Dispose? {
      var j :| 0 <= j < i && events[j].Dispose?;
      assert events[..i][j] == events[j];
    }
    if forall j :: 0 <= j < i ==> !events[j].Dispose? {
      forall j | 0 <= j < i
        ensures !events[..i][j].Dispose?
      {
        assert events[..i][j] == events[j];
      }
    }
  }

  /** Stand-in for `DefaultConsumerErrorStrategy`, whose code is not part of
      this model: its decision is a parameter, and `disposed` records that
      it was disposed. */
  class DefaultConsumerErrorStrategy {
    const decide: ErrorDecision
    var disposed: bool

    constructor(decide: ErrorDecision)
      ensures this.decide == decide && !disposed
    {
      this.decide := decide;
      disposed := false;
    }

    method Dispose()
      modifies this
      ensures disposed
    {
      disposed := true;
    }
  }

  class AllowCleanShutdownErrorStrategy {
    const defaultErrorStrategy: DefaultConsumerErrorStrategy
    var disposing: bool

    /** Builds its own default strategy; `_disposing` starts false. */
    constructor(decide: ErrorDecision)
      ensures fresh(defaultErrorStrategy) && !defaultErrorStrategy.disposed
      ensures defaultErrorStrategy.decide == decide
      ensures !disposing
    {
      defaultErrorStrategy := new DefaultConsumerErrorStrategy(decide);
      disposing := false;
    }

    /** Sets `_disposing`, then disposes the default strategy. */
    method Dispose()
      modifies this, defaultErrorStrategy
      ensures disposing == DisposingAfter(old(disposing), [StrategyEvent.Dispose])
      ensures defaultErrorStrategy.disposed
    {
      disposing := true;
      defaultErrorStrategy.Dispose();
    }

    /** Changes nothing: the decision depends only on the flag. */
    method HandleConsumerError(context: ConsumerExecutionContext, exception: Exception)
      returns (d: PostExceptionAckStrategy)
      ensures d == CleanShutdownDecision(disposing, defaultErrorStrategy.decide, context, exception)
      ensures disposing ==> d == ShouldNackWithRequeue
    {
      if disposing {
        return ShouldNackWithRequeue;
      }
      d := defaultErrorStrategy.decide(context, exception);
    }
  }
}

/** QueueBuilder<T> (Fluent/QueueBuilder.cs; IBus.cs carries an identical
    copy): the object a `Queue(name, configuration)` call hands to the
    caller's configuration action, and that later builds the subscription
    queue. */
module QueueBuilding {
  import opened Topology
  import opened Conventions
  import SubscriptionQueue

  /** The public calls a configuration action can make on the builder. */
  datatype QueueBuilderCall =
    | HighAvailability(isHighlyAvailable: bool)
    | WithTopic(topic: string)
    | WithTopics(topics: seq<string>)

  datatype QueueBuilderState = QueueBuilderState(subscriptionId: string, isHighlyAvailable: bool, topics: seq<string>)

  /** A new builder: not highly available, no topics. */
  function Fresh(subscriptionId: string): QueueBuilderState
  {
    QueueBuilderState(subscriptionId, false, [])
  }

  /** The effect of one call on the builder's fields. */
  function Step(s: QueueBuilderState, call: QueueBuilderCall): QueueBuilderState
  {
    match call
    case HighAvailability(b) => s.(isHighlyAvailable := b)
    case WithTopic(t) => s.(topics := s.topics + [t])
    case WithTopics(ts) => s.(topics := s.topics + ts)
  }

  /** The builder's fields after `calls` were made in order. */
  function Replay(s: QueueBuilderState, calls: seq<QueueBuilderCall>): QueueBuilderState
  {
    if calls == [] then s else Step(Replay(s, calls[..|calls| - 1]), calls[|calls| - 1])
  }

  /** Reference definition: the topics named by `calls`, in call order. */
  function TopicsOf(calls: seq<QueueBuilderCall>): seq<string>
  {
    if calls == [] then []
    else
      match calls[0]
      case HighAvailability(_) => TopicsOf(calls[1..])
      case WithTopic(t) => [t] + TopicsOf(calls[1..])
      case WithTopics(ts) => ts + TopicsOf(calls[1..])
  }

  predicate SetsHa(call: QueueBuilderCall)
  {
    call.HighAvailability?
  }

  lemma {:induction false} TopicsOfAppend(calls: seq<QueueBuilderCall>, call: QueueBuilderCall)
    ensures TopicsOf(calls + [call]) == TopicsOf(calls) + TopicsOf([call])
  {
    if calls != [] {
      assert (calls + [call])[1..] == calls[1..] + [call];
      TopicsOfAppend(calls[1..], call);
    }
  }

  /** Topics are only ever appended: the builder's topics are the ones it
      had, followed by every topic the calls named, in order, duplicates
      kept. The subscription id never changes. */
  lemma {:induction false} ReplayTopics(s: QueueBuilderState, calls: seq<QueueBuilderCall>)
    ensures Replay(s, calls).topics == s.topics + TopicsOf(calls)
    ensures Replay(s, calls).subscriptionId == s.subscriptionId
  {
    if calls != [] {
      var init, last := calls[..|calls| - 1], calls[|calls| - 1];
      ReplayTopics(s, init);
      assert calls == init + [last];
      TopicsOfAppend(init, last);
    }
  }

  /** `HighAvailability` is last-write-wins: after a call with `b`, later
      calls that do not set the flag leave it at `b`. */
  lemma {:induction false} HaLastWriteWins(s: QueueBuilderState, before: seq<QueueBuilderCall>, b: bool,
                                           after: seq<QueueBuilderCall>)
    requires forall i :: 0 <= i < |after| ==> !SetsHa(after[i])
    ensures Replay(s, before + [HighAvailability(b)] + after).isHighlyAvailable == b
  {
    if after == [] {
      assert before + [HighAvailability(b)] + after == before + [HighAvailability(b)];
      assert (before + [HighAvailability(b)])[..|before|] == before;
    } else {
      var init := after[..|after| - 1];
      HaLastWriteWins(s, before, b, init);
      assert (before + [HighAvailability(b)] + after)[..|before + [HighAvailability(b)] + after| - 1]
          == before + [HighAvailability(b)] + init;
      assert !SetsHa(after[|after| - 1]);
    }
  }

  /** Without a `HighAvailability` call the flag keeps its value, so a fresh
      builder stays not highly available. */
  lemma {:induction false} HaDefault(s: QueueBuilderState, calls: seq<QueueBuilderCall>)
    requires forall i :: 0 <= i < |calls| ==> !SetsHa(calls[i])
    ensures Replay(s, calls).isHighlyAvailable == s.isHighlyAvailable
  {
    if calls != [] {
      HaDefault(s, calls[..|calls| - 1]);
      assert !SetsHa(calls[|calls| - 1]);
    }
  }

  /** The queue `Build` declares for a builder in state `s`. */
  function BuiltQueue<T>(s: QueueBuilderState, bc: BuildConfiguration<T>): QueueDeclaration
  {
    SubscriptionQueue.BuildQueue(bc.conventions, bc.messageType, s.subscriptionId, s.isHighlyAvailable, s.topics)
  }

  /** What a queue configured by `calls` binds: every topic named, in order,
      or the catch-all when none was; and the HA argument exactly when the
      last `HighAvailability` call said so. */
  lemma ConfiguredQueue<T>(subscriptionId: string, calls: seq<QueueBuilderCall>, bc: BuildConfiguration<T>)
    ensures var q := BuiltQueue(Replay(Fresh(subscriptionId), calls), bc);
      && q.name == bc.conventions.queueName(bc.messageType, subscriptionId)
      && |q.bindings| == 1
      && (TopicsOf(calls) != [] ==> q.bindings[0].routingKeys == TopicsOf(calls))
      && (TopicsOf(calls) == [] ==> q.bindings[0].routingKeys == [SubscriptionQueue.CatchAll])
      && ((forall i :: 0 <= i < |calls| ==> !SetsHa(calls[i])) ==> q.arguments == map[])
  {
    ReplayTopics(Fresh(subscriptionId), calls);
    if forall i :: 0 <= i < |calls| ==> !SetsHa(calls[i]) {
      HaDefault(Fresh(subscriptionId), calls);
    }
  }

  class QueueBuilder {
    const subscriptionId: string
    var isHighlyAvailable: bool
    var topics: seq<string>

    function State(): QueueBuilderState
      reads this
    {
      QueueBuilderState(subscriptionId, isHighlyAvailable, topics)
    }

    constructor(subscriptionId: string)
      ensures State() == Fresh(subscriptionId)
    {
      this.subscriptionId := subscriptionId;
      isHighlyAvailable, topics := false, [];
    }

    method HighAvailability(isHighlyAvailable: bool) returns (self: QueueBuilder)
      modifies this
      ensures self == this
      ensures this.isHighlyAvailable == isHighlyAvailable && topics == old(topics)
    {
      this.isHighlyAvailable := isHighlyAvailable;
      self := this;
    }

    method WithTopic(topic: string) returns (self: QueueBuilder)
      modifies this
      ensures self == this
      ensures topics == old(topics) + [topic] && isHighlyAvailable == old(isHighlyAvailable)
    {
      topics := topics + [topic];
      self := this;
    }

    method WithTopics(newTopics: seq<string>) returns (self: QueueBuilder)
      modifies this
      ensures self == this
      ensures topics == old(topics) + newTopics && isHighlyAvailable == old(isHighlyAvailable)
    {
      topics := topics + newTopics;
      self := this;
    }

    /** `Build`: reads the builder and changes nothing. */
    function Build<T>(bc: BuildConfiguration<T>): (q: QueueDeclaration)
      reads this
      ensures q.name == bc.conventions.queueName(bc.messageType, subscriptionId) && q.durable
      ensures q.arguments == SubscriptionQueue.QueueArguments(isHighlyAvailable)
      ensures SubscriptionQueue.HaPolicyKey in q.arguments <==> isHighlyAvailable
      ensures isHighlyAvailable ==> q.arguments[SubscriptionQueue.HaPolicyKey] == "all"
      ensures !isHighlyAvailable ==> q.arguments == map[]
      ensures q.bindings == [Binding(DeclareTopic(bc.conventions.exchangeName(bc.messageType)),
                                     if |topics| > 0 then topics else [SubscriptionQueue.CatchAll])]
    {
      BuiltQueue(State(), bc)
    }

    /** Runs a caller's configuration action, given as the calls it makes on
        this builder, once and in order. */
    method Configure(calls: seq<QueueBuilderCall>)
      modifies this
      ensures State() == Replay(old(State()), calls)
    {
      var i := 0;
      while i < |calls|
        invariant 0 <= i <= |calls|
        invariant State() == Replay(old(State()), calls[..i])
      {
        var self: QueueBuilder;
        match calls[i] {
          case HighAvailability(b) => self := HighAvailability(b);
          case WithTopic(t) => self := WithTopic(t);
          case WithTopics(ts) => self := WithTopics(ts);
        }
        assert calls[..i + 1][..i] == calls[..i];
        i := i + 1;
      }
      assert calls[..|calls|] == calls;
    }
  }
}

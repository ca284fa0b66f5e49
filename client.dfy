/** MqttClient: the packet identifier counter, the tasks deferred until the
    connection is accepted, and the response consumers, one per packet
    identifier, that drive the SUBACK bookkeeping and the QoS 1 and QoS 2
    handshakes of MQTT 3.1.1 sections 4.3.2 and 4.3.3. The socket is an
    output sequence of packets; a user callback is known by an identity and
    its invocations are recorded as events. */
module Client {

  import opened Wrappers
  import opened MqttTypes

  /* ---------------- 32-bit counter ---------------- */

  const Int32Min: int := -0x8000_0000
  const Int32Max: int := 0x7fff_ffff

  /** The two's complement wrap-around of a Java int. */
  function Wrap32(x: int): (r: int)
    ensures Int32Min <= r <= Int32Max
    ensures Int32Min <= x <= Int32Max ==> r == x
    ensures x == Int32Max + 1 ==> r == Int32Min
  {
    ((x - Int32Min) % 0x1_0000_0000) + Int32Min
  }

  /** The counter after n calls of newPacketId on a fresh client. */
  function CounterAfter(n: nat): int {
    if n == 0 then 1 else Wrap32(CounterAfter(n - 1) + 1)
  }

  /** newPacketId hands out 1, 2, 3, ...: the n-th call (from 0) returns
      n + 1, until the counter reaches the largest int and wraps to the
      smallest. */
  lemma {:induction false} PacketIdsSequential(n: nat)
    requires n < Int32Max
    ensures CounterAfter(n) == n + 1
    ensures n + 1 < Int32Max ==> CounterAfter(n + 1) == CounterAfter(n) + 1
  {
    if n > 0 {
      PacketIdsSequential(n - 1);
    }
  }

  lemma PacketIdWraps()
    ensures CounterAfter(Int32Max) == Int32Min
  {
    PacketIdsSequential(Int32Max - 1);
  }

  /* ---------------- values ---------------- */

  /** The identity of a callback supplied by the user. */
  type CallbackId = nat

  /** Subscribe: a filter the client is subscribed to. */
  datatype Subscription = Subscription(topicFilter: string, qos: QoS, consumer: CallbackId)

  /** MqttTopicSubscription: a filter and the QoS requested for it. */
  datatype TopicSubscription = TopicSubscription(topicFilter: string, qos: QoS)

  /** The packets the client writes. */
  datatype Packet =
    | ConnectPacket
    | SubscribePacket(packetId: int, subscriptions: seq<TopicSubscription>)
    | PublishPacket(topic: string, qos: QoS, payload: seq<byte>, retain: bool, publishId: Option<int>)
    | PubRelPacket(packetId: int)

  /** The packets with a packet identifier the client is notified of. */
  datatype Response =
    | PubAckMsg(packetId: int)
    | PubRecMsg(packetId: int)
    | PubCompMsg(packetId: int)
    | SubAckMsg(packetId: int, returnCodes: seq<QoS>)
    | UnsubAckMsg(packetId: int)

  /** The lambdas put into responseConsumers, with what they capture. */
  datatype ResponseConsumer =
    | SubAckConsumer(subscriptions: seq<TopicSubscription>, qos: seq<QoS>, consumer: CallbackId)
    | PubAckConsumer(packetId: int, consumer: CallbackId)
    | PubRecConsumer(packetId: int, consumer: CallbackId)
    | PubCompConsumer(consumer: CallbackId)

  /** The lambdas put into waitTasks. */
  datatype Task =
    | SubscribeTask(topics: seq<string>, qosLevels: seq<QoS>, consumer: CallbackId)
    | PublishTask(topic: string, qos: QoS, payload: seq<byte>, retain: bool, consumer: CallbackId)

  /** Callbacks into user code: a delivered packet id, a topic listener
      notification, the CONNACK handed to the connect consumer. */
  datatype Event =
    | Delivered(consumer: CallbackId, packetId: int)
    | TopicListenerSubscribe(topicFilter: string, qos: QoS)
    | ConnAckDelivered(returnCode: byte)

  /** The exceptions of the client: no consumer registered under the id
      (a NullPointerException), a response of the wrong type (the failed
      type check or cast), a SUBACK without one code per filter, and the
      ArrayIndexOutOfBoundsException of subscribe0 reading the QoS of a
      filter past the end of the QoS array. */
  datatype ClientError =
    | NoConsumer(packetId: int)
    | InvalidMessageType(packetId: int)
    | SubAckCountMismatch(packetId: int)
    | QosIndexOutOfBounds(index: int)

  datatype ClientState = ClientState(
    packetIdCreator: int,
    connected: bool,
    waitTasks: seq<Task>,
    subscribes: map<string, Subscription>,
    responseConsumers: map<int, ResponseConsumer>,
    out: seq<Packet>,
    events: seq<Event>)

  /** The state after a call and the exception it ended with, if any. */
  datatype Outcome = Outcome(state: ClientState, thrown: Option<ClientError>)

  /** The state after polling tasks, the exception that stopped the polling,
      if any, and the tasks still queued behind the one that threw. */
  datatype Run = Run(state: ClientState, thrown: Option<ClientError>, left: seq<Task>)

  /** A SUBACK consumer is only registered with a QoS for every filter. */
  predicate ConsumerWellFormed(c: ResponseConsumer) {
    c.SubAckConsumer? ==> |c.subscriptions| <= |c.qos|
  }

  predicate StateWellFormed(s: ClientState) {
    forall id | id in s.responseConsumers :: ConsumerWellFormed(s.responseConsumers[id])
  }

  /* ---------------- the operations on the state ---------------- */

  /** The subscriptions the builder of subscribe0 collects: one per filter,
      with the QoS at the same index; a filter without a QoS throws when
      qos[|qos|] is read. */
  function Subscriptions(topics: seq<string>, qos: seq<QoS>): (r: Result<seq<TopicSubscription>, ClientError>)
    ensures r.Success? <==> |topics| <= |qos|
    ensures r.Failure? ==> r.error == QosIndexOutOfBounds(|qos|)
    ensures r.Success? ==> |r.value| == |topics|
    ensures r.Success? ==> forall i | 0 <= i < |r.value| :: r.value[i] == TopicSubscription(topics[i], qos[i])
  {
    if |topics| <= |qos| then
      Success(seq(|topics|, i requires 0 <= i < |topics| => TopicSubscription(topics[i], qos[i])))
    else Failure(QosIndexOutOfBounds(|qos|))
  }

  /** The builder loop of subscribe0: addSubscription for each filter in
      turn, with the QoS at the same index. */
  method BuildSubscriptions(topics: seq<string>, qos: seq<QoS>) returns (r: Result<seq<TopicSubscription>, ClientError>)
    ensures r == Subscriptions(topics, qos)
  {
    var subs: seq<TopicSubscription> := [];
    var i := 0;
    while i < |topics|
      invariant 0 <= i <= |topics| && i <= |qos|
      invariant |subs| == i
      invariant forall k | 0 <= k < i :: subs[k] == TopicSubscription(topics[k], qos[k])
    {
      if i == |qos| {
        return Failure(QosIndexOutOfBounds(i));
      }
      subs := subs + [TopicSubscription(topics[i], qos[i])];
      i := i + 1;
    }
    assert subs == Subscriptions(topics, qos).value;
    return Success(subs);
  }

  /** subscribe0: one SUBSCRIBE under a new packet id, its SUBACK consumer
      registered under that id. The id is taken before the filters are
      read, so a filter without a QoS consumes it and then throws, with
      nothing registered and nothing written. */
  function Subscribe0Spec(s: ClientState, topics: seq<string>, qos: seq<QoS>, consumer: CallbackId): Outcome {
    var id := s.packetIdCreator;
    var s1 := s.(packetIdCreator := Wrap32(id + 1));
    match Subscriptions(topics, qos)
    case Failure(e) => Outcome(s1, Some(e))
    case Success(subs) =>
      Outcome(s1.(responseConsumers := s.responseConsumers[id := SubAckConsumer(subs, qos, consumer)],
                  out := s.out + [SubscribePacket(id, subs)]), None)
  }

  /** publish0: a QoS above 0 takes a new packet id, QoS 1 and 2 register
      the consumer of their first response; then the PUBLISH is written. */
  function Publish0Spec(s: ClientState, topic: string, qos: QoS, payload: seq<byte>, retain: bool, consumer: CallbackId): ClientState {
    if qos.Value() > 0 then
      var id := s.packetIdCreator;
      var rc :=
        if qos == AT_LEAST_ONCE then s.responseConsumers[id := PubAckConsumer(id, consumer)]
        else if qos == EXACTLY_ONCE then s.responseConsumers[id := PubRecConsumer(id, consumer)]
        else s.responseConsumers;
      s.(packetIdCreator := Wrap32(id + 1), responseConsumers := rc,
         out := s.out + [PublishPacket(topic, qos, payload, retain, Some(id))])
    else
      s.(out := s.out + [PublishPacket(topic, qos, payload, retain, None)])
  }

  /** One deferred task; only a subscribe can throw. */
  function RunTask(s: ClientState, t: Task): (r: Outcome)
    ensures r.state.waitTasks == s.waitTasks && r.state.connected == s.connected && r.state.subscribes == s.subscribes
  {
    match t
    case SubscribeTask(topics, qos, consumer) => Subscribe0Spec(s, topics, qos, consumer)
    case PublishTask(topic, qos, payload, retain, consumer) => Outcome(Publish0Spec(s, topic, qos, payload, retain, consumer), None)
  }

  /** Polling tasks one after the other, first to last, until one throws:
      the exception leaves the loop, and the tasks behind that one stay
      queued. */
  function RunTasks(s: ClientState, ts: seq<Task>): (r: Run)
    ensures r.state.waitTasks == s.waitTasks && r.state.connected == s.connected && r.state.subscribes == s.subscribes
    ensures r.thrown.None? ==> r.left == []
    decreases |ts|
  {
    if |ts| == 0 then Run(s, None, [])
    else
      var o := RunTask(s, ts[0]);
      if o.thrown.Some? then Run(o.state, o.thrown, ts[1..]) else RunTasks(o.state, ts[1..])
  }

  /** The tasks left after a throw are the queue's tail behind the task
      that threw: fewer than the whole queue, in their queued order. */
  lemma {:induction false} RunTasksLeavesTail(s: ClientState, ts: seq<Task>)
    ensures var r := RunTasks(s, ts);
      |r.left| < |ts| || r.left == []
    ensures var r := RunTasks(s, ts);
      r.left == ts[|ts| - |RunTasks(s, ts).left|..]
    decreases |ts|
  {
    if |ts| > 0 {
      var o := RunTask(s, ts[0]);
      if o.thrown.None? {
        RunTasksLeavesTail(o.state, ts[1..]);
        var n := |RunTasks(o.state, ts[1..]).left|;
        assert ts[1..][|ts| - 1 - n..] == ts[|ts| - n..];
      }
    }
  }

  /** Running two queues in turn is running the one after the other; when
      the first throws, the second stays queued behind what it left. */
  lemma {:induction false} RunTasksAppend(s: ClientState, a: seq<Task>, b: seq<Task>)
    ensures RunTasks(s, a + b) ==
      var r := RunTasks(s, a);
      if r.thrown.Some? then Run(r.state, r.thrown, r.left + b) else RunTasks(r.state, b)
    decreases |a|
  {
    if |a| > 0 {
      assert (a + b)[0] == a[0];
      assert (a + b)[1..] == a[1..] + b;
      RunTasksAppend(RunTask(s, a[0]).state, a[1..], b);
    } else {
      assert a + b == b;
    }
  }

  /** One more polled task, run on the state the first polled tasks left
      with the rest of the queue in place: when it does not throw, it
      extends the run by one task. */
  lemma PollStep(start: ClientState, queue: seq<Task>, polled: nat, w: seq<Task>)
    requires polled < |queue|
    requires RunTasks(start, queue[..polled]).thrown.None?
    requires RunTask(RunTasks(start, queue[..polled]).state.(waitTasks := w), queue[polled]).thrown.None?
    ensures RunTasks(start, queue[..polled + 1]) ==
      Run(RunTask(RunTasks(start, queue[..polled]).state.(waitTasks := w), queue[polled]).state.(waitTasks := start.waitTasks), None, [])
  {
    var p := RunTasks(start, queue[..polled]).state;
    RunTaskKeepsQueue(p, w, queue[polled]);
    PollOne(start, queue, polled);
    assert RunTask(p, queue[polled]).state.(waitTasks := w).(waitTasks := start.waitTasks) == RunTask(p, queue[polled]).state;
  }

  /** When it throws, it ends the run of the whole queue, the tasks behind
      it left queued. */
  lemma PollThrows(start: ClientState, queue: seq<Task>, polled: nat, w: seq<Task>)
    requires polled < |queue|
    requires RunTasks(start, queue[..polled]).thrown.None?
    requires RunTask(RunTasks(start, queue[..polled]).state.(waitTasks := w), queue[polled]).thrown.Some?
    ensures var o := RunTask(RunTasks(start, queue[..polled]).state.(waitTasks := w), queue[polled]);
      RunTasks(start, queue) == Run(o.state.(waitTasks := start.waitTasks), o.thrown, queue[polled + 1..])
  {
    var p := RunTasks(start, queue[..polled]).state;
    var o := RunTask(p, queue[polled]);
    var a, b := queue[..polled + 1], queue[polled + 1..];
    RunTaskKeepsQueue(p, w, queue[polled]);
    PollOne(start, queue, polled);
    assert RunTasks(start, a) == Run(o.state, o.thrown, []);
    RunTasksThrown(start, a, b);
    assert RunTasks(start, queue) == Run(o.state, o.thrown, b);
    RestoreQueue(o.state, w, start.waitTasks);
  }

  lemma RestoreQueue(s: ClientState, w: seq<Task>, q: seq<Task>)
    requires s.waitTasks == q
    ensures s.(waitTasks := w).(waitTasks := q) == s
  {
  }

  /** What follows a task that throws as the last of its run is left
      queued as it is. */
  lemma RunTasksThrown(s: ClientState, a: seq<Task>, b: seq<Task>)
    requires RunTasks(s, a).thrown.Some? && RunTasks(s, a).left == []
    ensures RunTasks(s, a + b) == Run(RunTasks(s, a).state, RunTasks(s, a).thrown, b)
  {
    RunTasksAppend(s, a, b);
    assert [] + b == b;
  }

  /** The first polled + 1 tasks: the first polled, then one more. */
  lemma PollOne(start: ClientState, queue: seq<Task>, polled: nat)
    requires polled < |queue|
    requires RunTasks(start, queue[..polled]).thrown.None?
    ensures var o := RunTask(RunTasks(start, queue[..polled]).state, queue[polled]);
      RunTasks(start, queue[..polled + 1]) == Run(o.state, o.thrown, [])
    ensures queue == queue[..polled + 1] + queue[polled + 1..]
  {
    SplitAt(queue, polled);
    RunTasksAppend(start, queue[..polled], [queue[polled]]);
    RunTasksOne(RunTasks(start, queue[..polled]).state, queue[polled]);
  }

  lemma SplitAt(q: seq<Task>, n: nat)
    requires n < |q|
    ensures q[..n + 1] == q[..n] + [q[n]]
    ensures q == q[..n + 1] + q[n + 1..]
  {
  }

  /** A task neither reads nor changes the queue. */
  lemma RunTaskKeepsQueue(s: ClientState, w: seq<Task>, t: Task)
    ensures RunTask(s.(waitTasks := w), t) == Outcome(RunTask(s, t).state.(waitTasks := w), RunTask(s, t).thrown)
  {
  }

  lemma RunTasksOne(s: ClientState, t: Task)
    ensures RunTasks(s, [t]) == Run(RunTask(s, t).state, RunTask(s, t).thrown, [])
  {
    assert [t][1..] == [];
  }

  /** subscribe: immediately when connected, queued otherwise. */
  function SubscribeSpec(s: ClientState, topics: seq<string>, qos: seq<QoS>, consumer: CallbackId): Outcome {
    if s.connected then Subscribe0Spec(s, topics, qos, consumer)
    else Outcome(s.(waitTasks := s.waitTasks + [SubscribeTask(topics, qos, consumer)]), None)
  }

  /** publish: immediately when connected, queued otherwise. */
  function PublishSpec(s: ClientState, topic: string, qos: QoS, payload: seq<byte>, retain: bool, consumer: CallbackId): ClientState {
    if s.connected then Publish0Spec(s, topic, qos, payload, retain, consumer)
    else s.(waitTasks := s.waitTasks + [PublishTask(topic, qos, payload, retain, consumer)])
  }

  /** connect: CONNECT is written and the client counts as connected from
      then on, before any CONNACK. */
  function ConnectSpec(s: ClientState): ClientState {
    s.(out := s.out + [ConnectPacket], connected := true)
  }

  /** The CONNACK callback: an accepted connection marks the client
      connected and polls the queued tasks in order until none is left; the
      CONNACK then goes to the user's consumer whatever its code. A task that
      throws ends the callback there: the tasks behind it stay queued and
      the user's consumer is not called. */
  function OnConnAckSpec(s: ClientState, returnCode: byte): Outcome {
    if returnCode != 0x00 then Outcome(s.(events := s.events + [ConnAckDelivered(returnCode)]), None)
    else
      var r := RunTasks(s.(connected := true, waitTasks := []), s.waitTasks);
      var s1 := r.state.(waitTasks := r.left);
      if r.thrown.Some? then Outcome(s1, r.thrown)
      else Outcome(s1.(events := s1.events + [ConnAckDelivered(returnCode)]), None)
  }

  /* ---------------- SUBACK bookkeeping ---------------- */

  /** MqttQoS.valueOf(Math.min(a.value(), b.value())). */
  function MinQoS(a: QoS, b: QoS): (r: QoS)
    ensures r.Value() == if a.Value() <= b.Value() then a.Value() else b.Value()
    ensures r == a || r == b
  {
    if a.Value() <= b.Value() then a else b
  }

  /** The SUBACK consumer as written, from the i-th subscription on: the
      QoS recorded is the minimum of the subscription's QoS and qos[i], both
      of which are the QoS the SUBSCRIBE requested. */
  function RecordSubAckAsWritten(m: map<string, Subscription>, ev: seq<Event>, subs: seq<TopicSubscription>,
                                 qos: seq<QoS>, consumer: CallbackId, i: nat): (map<string, Subscription>, seq<Event>)
    requires i <= |subs| <= |qos|
    decreases |subs| - i
  {
    if i == |subs| then (m, ev)
    else
      var sub := subs[i];
      var minQos := MinQoS(sub.qos, qos[i]);
      var ev' := ev + [TopicListenerSubscribe(sub.topicFilter, if sub.qos == FAILURE then FAILURE else minQos)];
      var m' := if sub.qos != FAILURE then m[sub.topicFilter := Subscription(sub.topicFilter, minQos, consumer)] else m;
      RecordSubAckAsWritten(m', ev', subs, qos, consumer, i + 1)
  }

  /** The SUBACK consumer with the granted codes the SUBACK carries
      (MQTT 3.1.1 section 3.9.3): a refused filter is reported as FAILURE and
      not recorded, any other is recorded with the lower of the requested
      and the granted QoS. */
  function RecordSubAck(m: map<string, Subscription>, ev: seq<Event>, subs: seq<TopicSubscription>,
                        granted: seq<QoS>, consumer: CallbackId, i: nat): (map<string, Subscription>, seq<Event>)
    requires i <= |subs| == |granted|
    decreases |subs| - i
  {
    if i == |subs| then (m, ev)
    else
      var sub := subs[i];
      var g := granted[i];
      var minQos := MinQoS(sub.qos, g);
      var ev' := ev + [TopicListenerSubscribe(sub.topicFilter, if g == FAILURE then FAILURE else minQos)];
      var m' := if g != FAILURE then m[sub.topicFilter := Subscription(sub.topicFilter, minQos, consumer)] else m;
      RecordSubAck(m', ev', subs, granted, consumer, i + 1)
  }

  predicate DistinctFilters(subs: seq<TopicSubscription>) {
    forall j, k | 0 <= j < k < |subs| :: subs[j].topicFilter != subs[k].topicFilter
  }

  /** The corrected consumer tells the topic listener about every filter,
      in order: FAILURE for a refused one, the recorded QoS otherwise. */
  lemma {:induction false} RecordSubAckEvents(m: map<string, Subscription>, ev: seq<Event>, subs: seq<TopicSubscription>,
                                             granted: seq<QoS>, consumer: CallbackId, i: nat)
    requires i <= |subs| == |granted|
    ensures var ev2 := RecordSubAck(m, ev, subs, granted, consumer, i).1;
      && |ev2| == |ev| + |subs| - i
      && ev2[..|ev|] == ev
      && (forall k | i <= k < |subs| ::
            ev2[|ev| + k - i] == TopicListenerSubscribe(subs[k].topicFilter,
              if granted[k] == FAILURE then FAILURE else MinQoS(subs[k].qos, granted[k])))
    decreases |subs| - i
  {
    if i < |subs| {
      var sub := subs[i];
      var g := granted[i];
      var minQos := MinQoS(sub.qos, g);
      var ev' := ev + [TopicListenerSubscribe(sub.topicFilter, if g == FAILURE then FAILURE else minQos)];
      var m' := if g != FAILURE then m[sub.topicFilter := Subscription(sub.topicFilter, minQos, consumer)] else m;
      RecordSubAckEvents(m', ev', subs, granted, consumer, i + 1);
      var ev2 := RecordSubAck(m, ev, subs, granted, consumer, i).1;
      assert ev2 == RecordSubAck(m', ev', subs, granted, consumer, i + 1).1;
      assert ev2[..|ev|] == ev2[..|ev'|][..|ev|];
    }
  }

  /** With distinct filters, the corrected consumer records each granted
      filter with the lower of the requested and the granted QoS, and leaves
      every other filter as it was. */
  lemma {:induction false} RecordSubAckRecords(m: map<string, Subscription>, ev: seq<Event>, subs: seq<TopicSubscription>,
                                              granted: seq<QoS>, consumer: CallbackId, i: nat)
    requires i <= |subs| == |granted| && DistinctFilters(subs)
    ensures var m2 := RecordSubAck(m, ev, subs, granted, consumer, i).0;
      && (forall k | i <= k < |subs| && granted[k] != FAILURE ::
            subs[k].topicFilter in m2 &&
            m2[subs[k].topicFilter] == Subscription(subs[k].topicFilter, MinQoS(subs[k].qos, granted[k]), consumer))
      && (forall f | f !in GrantedFilters(subs, granted, i) :: (f in m2 <==> f in m) && (f in m ==> m2[f] == m[f]))
    decreases |subs| - i
  {
    if i < |subs| {
      var sub := subs[i];
      var g := granted[i];
      var minQos := MinQoS(sub.qos, g);
      var ev' := ev + [TopicListenerSubscribe(sub.topicFilter, if g == FAILURE then FAILURE else minQos)];
      var m' := if g != FAILURE then m[sub.topicFilter := Subscription(sub.topicFilter, minQos, consumer)] else m;
      RecordSubAckRecords(m', ev', subs, granted, consumer, i + 1);
      var m2 := RecordSubAck(m, ev, subs, granted, consumer, i).0;
      assert m2 == RecordSubAck(m', ev', subs, granted, consumer, i + 1).0;
      if g != FAILURE {
        assert sub.topicFilter !in GrantedFilters(subs, granted, i + 1);
      }
    }
  }

  /** The filters from the i-th on whose code is not FAILURE. */
  function GrantedFilters(subs: seq<TopicSubscription>, granted: seq<QoS>, i: nat): (r: set<string>)
    requires i <= |subs| == |granted|
    ensures forall k | i <= k < |subs| && granted[k] != FAILURE :: subs[k].topicFilter in r
    ensures forall f | f in r :: exists k | i <= k < |subs| :: granted[k] != FAILURE && subs[k].topicFilter == f
    decreases |subs| - i
  {
    if i == |subs| then {}
    else (if granted[i] != FAILURE then {subs[i].topicFilter} else {}) + GrantedFilters(subs, granted, i + 1)
  }

  /** As written the SUBACK's codes are never read: a filter requested at
      QoS 2 and granted QoS 0 is recorded at QoS 2, where the corrected
      consumer records QoS 0. */
  lemma SubAckGrantedIgnored(m: map<string, Subscription>, ev: seq<Event>, consumer: CallbackId)
    ensures var subs := [TopicSubscription("a", EXACTLY_ONCE)];
      && RecordSubAckAsWritten(m, ev, subs, [EXACTLY_ONCE], consumer, 0).0["a"] == Subscription("a", EXACTLY_ONCE, consumer)
      && RecordSubAck(m, ev, subs, [AT_MOST_ONCE], consumer, 0).0["a"] == Subscription("a", AT_MOST_ONCE, consumer)
  {
  }

  /* ---------------- notifyResponse ---------------- */

  /** notifyResponse: runs the consumer registered under the response's
      packet id. A PUBACK ends QoS 1: the consumer goes and the user gets the
      id. A PUBREC is the first half of QoS 2: a PUBCOMP consumer replaces
      the consumer and PUBREL goes out with the same id. A PUBCOMP hands the
      id to the user, its consumer staying registered. A SUBACK records the
      granted filters, its consumer staying registered. */
  function NotifyResponseSpec(s: ClientState, msg: Response): Result<ClientState, ClientError>
    requires StateWellFormed(s)
  {
    var id := msg.packetId;
    if id !in s.responseConsumers then Failure(NoConsumer(id))
    else match s.responseConsumers[id]
      case SubAckConsumer(subs, qos, consumer) =>
        if !msg.SubAckMsg? then Failure(InvalidMessageType(id))
        else if |msg.returnCodes| != |subs| then Failure(SubAckCountMismatch(id))
        else
          var (m, ev) := RecordSubAck(s.subscribes, s.events, subs, msg.returnCodes, consumer, 0);
          Success(s.(subscribes := m, events := ev))
      case PubAckConsumer(packetId, consumer) =>
        if !msg.PubAckMsg? then Failure(InvalidMessageType(id))
        else Success(s.(responseConsumers := s.responseConsumers - {packetId},
                        events := s.events + [Delivered(consumer, packetId)]))
      case PubRecConsumer(packetId, consumer) =>
        if !msg.PubRecMsg? then Failure(InvalidMessageType(id))
        else Success(s.(responseConsumers := s.responseConsumers[packetId := PubCompConsumer(consumer)],
                        out := s.out + [PubRelPacket(msg.packetId)]))
      case PubCompConsumer(consumer) =>
        if !msg.PubCompMsg? then Failure(InvalidMessageType(id))
        else Success(s.(events := s.events + [Delivered(consumer, msg.packetId)]))
  }

  /** notifyResponse as written: the SUBACK consumer never reads the SUBACK,
      so any SUBACK for the id is accepted, whatever codes it holds, and the
      requested QoS is recorded. The other consumers are as above. */
  function NotifyResponseAsWrittenSpec(s: ClientState, msg: Response): Result<ClientState, ClientError>
    requires StateWellFormed(s)
  {
    var id := msg.packetId;
    if id !in s.responseConsumers then Failure(NoConsumer(id))
    else match s.responseConsumers[id]
      case SubAckConsumer(subs, qos, consumer) =>
        if !msg.SubAckMsg? then Failure(InvalidMessageType(id))
        else
          var (m, ev) := RecordSubAckAsWritten(s.subscribes, s.events, subs, qos, consumer, 0);
          Success(s.(subscribes := m, events := ev))
      case _ => NotifyResponseSpec(s, msg)
  }

  /** When the SUBACK grants every filter exactly the QoS requested for it,
      the consumer as written and the corrected one record the same. */
  lemma {:induction false} RecordSubAckAgrees(m: map<string, Subscription>, ev: seq<Event>, subs: seq<TopicSubscription>,
                                             qos: seq<QoS>, granted: seq<QoS>, consumer: CallbackId, i: nat)
    requires i <= |subs| == |granted| <= |qos|
    requires forall k | 0 <= k < |subs| :: subs[k].qos == qos[k] == granted[k]
    ensures RecordSubAckAsWritten(m, ev, subs, qos, consumer, i) == RecordSubAck(m, ev, subs, granted, consumer, i)
    decreases |subs| - i
  {
    if i < |subs| {
      var sub := subs[i];
      var minQos := MinQoS(sub.qos, qos[i]);
      assert MinQoS(sub.qos, granted[i]) == minQos;
      var ev' := ev + [TopicListenerSubscribe(sub.topicFilter, if sub.qos == FAILURE then FAILURE else minQos)];
      var m' := if sub.qos != FAILURE then m[sub.topicFilter := Subscription(sub.topicFilter, minQos, consumer)] else m;
      RecordSubAckAgrees(m', ev', subs, qos, granted, consumer, i + 1);
    }
  }

  /** The two notifyResponse definitions differ only on a SUBACK: on one
      that grants every filter its requested QoS they agree, and on any
      other response they are the same. */
  lemma NotifyResponseAsWrittenAgrees(s: ClientState, msg: Response)
    requires StateWellFormed(s)
    requires msg.packetId in s.responseConsumers && s.responseConsumers[msg.packetId].SubAckConsumer? ==>
      var c := s.responseConsumers[msg.packetId];
      msg.SubAckMsg? && msg.returnCodes == c.qos[..|c.subscriptions|] &&
      forall k | 0 <= k < |c.subscriptions| :: c.subscriptions[k].qos == c.qos[k]
    ensures NotifyResponseAsWrittenSpec(s, msg) == NotifyResponseSpec(s, msg)
  {
    var id := msg.packetId;
    if id in s.responseConsumers && s.responseConsumers[id].SubAckConsumer? {
      var c := s.responseConsumers[id];
      assert ConsumerWellFormed(c);
      RecordSubAckAgrees(s.subscribes, s.events, c.subscriptions, c.qos, msg.returnCodes, c.consumer, 0);
    }
  }

  /** As written a SUBACK with no codes at all is taken as granting every
      filter; the corrected consumer refuses it. */
  lemma SubAckCountIgnored(s: ClientState, id: int, consumer: CallbackId)
    requires s.responseConsumers == map[id := SubAckConsumer([TopicSubscription("a", AT_LEAST_ONCE)], [AT_LEAST_ONCE], consumer)]
    ensures NotifyResponseAsWrittenSpec(s, SubAckMsg(id, [])).Success?
    ensures NotifyResponseAsWrittenSpec(s, SubAckMsg(id, [])).value.subscribes["a"] == Subscription("a", AT_LEAST_ONCE, consumer)
    ensures NotifyResponseSpec(s, SubAckMsg(id, [])) == Failure(SubAckCountMismatch(id))
  {
    assert ConsumerWellFormed(s.responseConsumers[id]);
  }

  /* ---------------- properties of the handshakes ---------------- */

  /** A QoS 0 publish takes no packet id and registers no consumer. */
  lemma Qos0Publish(s: ClientState, topic: string, payload: seq<byte>, retain: bool, consumer: CallbackId)
    ensures var s1 := Publish0Spec(s, topic, AT_MOST_ONCE, payload, retain, consumer);
      s1 == s.(out := s.out + [PublishPacket(topic, AT_MOST_ONCE, payload, retain, None)])
  {
  }

  /** QoS 1 (MQTT 3.1.1 section 4.3.2): the PUBLISH carries a new id, the
      PUBACK for that id delivers it to the user and leaves the consumers as
      they were before the publish; any other response to it is refused and
      changes nothing. */
  lemma Qos1Handshake(s: ClientState, topic: string, payload: seq<byte>, retain: bool, consumer: CallbackId)
    requires StateWellFormed(s) && s.packetIdCreator !in s.responseConsumers
    ensures var id := s.packetIdCreator;
      var s1 := Publish0Spec(s, topic, AT_LEAST_ONCE, payload, retain, consumer);
      && StateWellFormed(s1)
      && s1.out == s.out + [PublishPacket(topic, AT_LEAST_ONCE, payload, retain, Some(id))]
      && NotifyResponseSpec(s1, PubAckMsg(id)) ==
           Success(s1.(responseConsumers := s.responseConsumers, events := s.events + [Delivered(consumer, id)]))
      && NotifyResponseSpec(s1, PubRecMsg(id)) == Failure(InvalidMessageType(id))
      && NotifyResponseSpec(s1, PubCompMsg(id)) == Failure(InvalidMessageType(id))
  {
    var id := s.packetIdCreator;
    var s1 := Publish0Spec(s, topic, AT_LEAST_ONCE, payload, retain, consumer);
    assert s1.responseConsumers - {id} == s.responseConsumers;
  }

  /** QoS 2 (MQTT 3.1.1 section 4.3.3): PUBREC for the new id writes PUBREL
      with that id and swaps in the PUBCOMP consumer; PUBCOMP delivers the id
      to the user. That consumer is never removed, so a second PUBCOMP
      delivers the id again. */
  lemma Qos2Handshake(s: ClientState, topic: string, payload: seq<byte>, retain: bool, consumer: CallbackId)
    requires StateWellFormed(s)
    ensures var id := s.packetIdCreator;
      var s1 := Publish0Spec(s, topic, EXACTLY_ONCE, payload, retain, consumer);
      && StateWellFormed(s1)
      && s1.out == s.out + [PublishPacket(topic, EXACTLY_ONCE, payload, retain, Some(id))]
      && NotifyResponseSpec(s1, PubAckMsg(id)) == Failure(InvalidMessageType(id))
      && NotifyResponseSpec(s1, PubRecMsg(id)).Success?
      && var s2 := NotifyResponseSpec(s1, PubRecMsg(id)).value;
        && s2.out == s1.out + [PubRelPacket(id)]
        && s2.responseConsumers == s.responseConsumers[id := PubCompConsumer(consumer)]
        && StateWellFormed(s2)
        && NotifyResponseSpec(s2, PubCompMsg(id)) == Success(s2.(events := s.events + [Delivered(consumer, id)]))
        && var s3 := NotifyResponseSpec(s2, PubCompMsg(id)).value;
          && s3.responseConsumers == s2.responseConsumers
          && NotifyResponseSpec(s3, PubCompMsg(id)).Success?
  {
  }

  /** A response whose id has no consumer is an error and changes nothing. */
  lemma NoConsumerFails(s: ClientState, msg: Response)
    requires StateWellFormed(s) && msg.packetId !in s.responseConsumers
    ensures NotifyResponseSpec(s, msg) == Failure(NoConsumer(msg.packetId))
  {
  }

  /** While not connected a publish only joins the queue; once the CONNACK
      accepts the connection it runs after every task queued before it,
      leaving the queue empty, unless one of those throws: then it stays
      queued behind the tasks that did not run. */
  lemma QueuedPublishRunsInOrder(s: ClientState, topic: string, qos: QoS, payload: seq<byte>, retain: bool, consumer: CallbackId)
    requires !s.connected
    ensures var s1 := PublishSpec(s, topic, qos, payload, retain, consumer);
      var task := PublishTask(topic, qos, payload, retain, consumer);
      && s1 == s.(waitTasks := s.waitTasks + [task])
      && var o := OnConnAckSpec(s1, 0x00);
        && o.state.connected
        && var before := RunTasks(s.(connected := true, waitTasks := []), s.waitTasks);
          && (before.thrown.None? ==>
                o == Outcome(Publish0Spec(before.state, topic, qos, payload, retain, consumer).(events := before.state.events + [ConnAckDelivered(0x00)]), None))
          && (before.thrown.Some? ==>
                o == Outcome(before.state.(waitTasks := before.left + [task]), before.thrown))
  {
    var task := PublishTask(topic, qos, payload, retain, consumer);
    var s1 := PublishSpec(s, topic, qos, payload, retain, consumer);
    var base := s.(connected := true, waitTasks := []);
    RunTasksAppend(base, s.waitTasks, [task]);
    assert s1.(connected := true, waitTasks := []) == base;
    var before := RunTasks(base, s.waitTasks);
    if before.thrown.None? {
      assert RunTasks(before.state, [task]) == Run(Publish0Spec(before.state, topic, qos, payload, retain, consumer), None, []);
    }
  }

  /** A refused CONNACK runs nothing: the queue stays and only the user's
      consumer hears of it. */
  lemma RefusedConnAckRunsNothing(s: ClientState, returnCode: byte)
    requires returnCode != 0x00
    ensures OnConnAckSpec(s, returnCode) == Outcome(s.(events := s.events + [ConnAckDelivered(returnCode)]), None)
  {
  }

  /** A connected subscribe with more filters than QoS levels throws after
      taking its packet id: only the counter moves, nothing is registered
      or written, and the subscriptions are as before. */
  lemma SubscribeOutOfBounds(s: ClientState, topics: seq<string>, qos: seq<QoS>, consumer: CallbackId)
    requires s.connected && |topics| > |qos|
    ensures SubscribeSpec(s, topics, qos, consumer) ==
      Outcome(s.(packetIdCreator := Wrap32(s.packetIdCreator + 1)), Some(QosIndexOutOfBounds(|qos|)))
  {
  }

  /** Queued while disconnected, such a subscribe throws inside the CONNACK
      callback: the publish queued behind it stays queued, nothing is
      written, and the user's consumer never gets the CONNACK. */
  lemma QueuedBadSubscribeAbortsConnAck(s: ClientState, topics: seq<string>, qos: seq<QoS>, consumer: CallbackId,
                                        topic: string, payload: seq<byte>, callback: CallbackId)
    requires !s.connected && s.waitTasks == [] && |topics| > |qos|
    ensures var s1 := SubscribeSpec(s, topics, qos, consumer);
      var s2 := PublishSpec(s1.state, topic, AT_LEAST_ONCE, payload, false, callback);
      var o := OnConnAckSpec(s2, 0x00);
      && s1.thrown.None?
      && o.thrown == Some(QosIndexOutOfBounds(|qos|))
      && o.state.waitTasks == [PublishTask(topic, AT_LEAST_ONCE, payload, false, callback)]
      && o.state.connected
      && o.state.out == s.out && o.state.events == s.events
      && o.state.responseConsumers == s.responseConsumers
      && o.state.packetIdCreator == Wrap32(s.packetIdCreator + 1)
  {
    var sub := SubscribeTask(topics, qos, consumer);
    var pub := PublishTask(topic, AT_LEAST_ONCE, payload, false, callback);
    var s2 := PublishSpec(SubscribeSpec(s, topics, qos, consumer).state, topic, AT_LEAST_ONCE, payload, false, callback);
    assert s2.waitTasks == [sub, pub];
    var base := s2.(connected := true, waitTasks := []);
    assert [sub, pub][1..] == [pub];
    assert RunTasks(base, [sub, pub]) == Run(base.(packetIdCreator := Wrap32(s.packetIdCreator + 1)), Some(QosIndexOutOfBounds(|qos|)), [pub]);
  }

  /* ---------------- the client object ---------------- */

  class MqttClient {
    var packetIdCreator: int
    var connected: bool
    var waitTasks: seq<Task>
    var subscribes: map<string, Subscription>
    var responseConsumers: map<int, ResponseConsumer>
    var out: seq<Packet>
    var events: seq<Event>

    function State(): ClientState
      reads this
    {
      ClientState(packetIdCreator, connected, waitTasks, subscribes, responseConsumers, out, events)
    }

    ghost predicate Valid()
      reads this
    {
      StateWellFormed(State())
    }

    constructor ()
      ensures Valid()
      ensures State() == ClientState(1, false, [], map[], map[], [], [])
    {
      packetIdCreator := 1;
      connected := false;
      waitTasks := [];
      subscribes := map[];
      responseConsumers := map[];
      out := [];
      events := [];
    }

    /** newPacketId: getAndIncrement on the counter. */
    method NewPacketId() returns (id: int)
      modifies this
      ensures id == old(packetIdCreator)
      ensures State() == old(State()).(packetIdCreator := Wrap32(old(packetIdCreator) + 1))
    {
      id := packetIdCreator;
      packetIdCreator := Wrap32(packetIdCreator + 1);
    }

    method Write(p: Packet)
      modifies this
      ensures State() == old(State()).(out := old(out) + [p])
    {
      out := out + [p];
    }

    /** write(msg, consumer): the consumer is registered before the packet
        is written. */
    method WriteWithConsumer(packetId: int, p: Packet, consumer: ResponseConsumer)
      modifies this
      ensures State() == old(State()).(responseConsumers := old(responseConsumers)[packetId := consumer],
                                        out := old(out) + [p])
    {
      responseConsumers := responseConsumers[packetId := consumer];
      out := out + [p];
    }

    method Connect()
      modifies this
      requires Valid()
      ensures Valid()
      ensures State() == ConnectSpec(old(State()))
    {
      Write(ConnectPacket);
      connected := true;
    }

    /** subscribe0: the id is taken, the builder loop collects the
        subscriptions, then the SUBACK consumer is registered and the
        SUBSCRIBE written; the loop's exception skips the last two. */
    method Subscribe0(topics: seq<string>, qos: seq<QoS>, consumer: CallbackId) returns (thrown: Option<ClientError>)
      requires Valid()
      modifies this
      ensures Valid()
      ensures Outcome(State(), thrown) == Subscribe0Spec(old(State()), topics, qos, consumer)
    {
      var id := NewPacketId();
      var subs := BuildSubscriptions(topics, qos);
      if subs.Failure? {
        return Some(subs.error);
      }
      responseConsumers := responseConsumers[id := SubAckConsumer(subs.value, qos, consumer)];
      Write(SubscribePacket(id, subs.value));
      return None;
    }

    method Subscribe(topics: seq<string>, qos: seq<QoS>, consumer: CallbackId) returns (thrown: Option<ClientError>)
      requires Valid()
      modifies this
      ensures Valid()
      ensures Outcome(State(), thrown) == SubscribeSpec(old(State()), topics, qos, consumer)
    {
      if connected {
        thrown := Subscribe0(topics, qos, consumer);
      } else {
        waitTasks := waitTasks + [SubscribeTask(topics, qos, consumer)];
        thrown := None;
      }
    }

    method Publish0(topic: string, qos: QoS, payload: seq<byte>, retain: bool, consumer: CallbackId)
      requires Valid()
      modifies this
      ensures Valid()
      ensures State() == Publish0Spec(old(State()), topic, qos, payload, retain, consumer)
    {
      if qos.Value() > 0 {
        var packetId := NewPacketId();
        if qos == AT_LEAST_ONCE {
          responseConsumers := responseConsumers[packetId := PubAckConsumer(packetId, consumer)];
        } else if qos == EXACTLY_ONCE {
          responseConsumers := responseConsumers[packetId := PubRecConsumer(packetId, consumer)];
        }
        Write(PublishPacket(topic, qos, payload, retain, Some(packetId)));
      } else {
        Write(PublishPacket(topic, qos, payload, retain, None));
      }
    }

    method Publish(topic: string, qos: QoS, payload: seq<byte>, retain: bool, consumer: CallbackId)
      requires Valid()
      modifies this
      ensures Valid()
      ensures State() == PublishSpec(old(State()), topic, qos, payload, retain, consumer)
    {
      if connected {
        Publish0(topic, qos, payload, retain, consumer);
      } else {
        waitTasks := waitTasks + [PublishTask(topic, qos, payload, retain, consumer)];
      }
    }

    /** The CONNACK callback: on acceptance, the queued tasks are run. */
    method OnConnAck(returnCode: byte) returns (thrown: Option<ClientError>)
      requires Valid()
      modifies this
      ensures Valid()
      ensures Outcome(State(), thrown) == OnConnAckSpec(old(State()), returnCode)
    {
      thrown := None;
      if returnCode == 0x00 {
        connected := true;
        thrown := PollTasks();
        if thrown.Some? {
          return;
        }
      }
      events := events + [ConnAckDelivered(returnCode)];
    }

    /** The loop that polls the queue until it is empty or a task throws. */
    method PollTasks() returns (thrown: Option<ClientError>)
      requires Valid()
      modifies this
      ensures Valid()
      ensures var r := RunTasks(old(State()).(waitTasks := []), old(waitTasks));
        State() == r.state.(waitTasks := r.left) && thrown == r.thrown
    {
      ghost var queue := waitTasks;
      ghost var start := State().(waitTasks := []);
      var polled := 0;
      while |waitTasks| > 0
        invariant Valid()
        invariant polled <= |queue| && waitTasks == queue[polled..]
        invariant RunTasks(start, queue[..polled]).thrown.None?
        invariant State() == RunTasks(start, queue[..polled]).state.(waitTasks := waitTasks)
        decreases |waitTasks|
      {
        var task := waitTasks[0];
        waitTasks := waitTasks[1..];
        assert waitTasks == queue[polled + 1..];
        thrown := RunOne(task);
        if thrown.Some? {
          PollThrows(start, queue, polled, waitTasks);
          return;
        }
        PollStep(start, queue, polled, waitTasks);
        polled := polled + 1;
      }
      assert queue[..polled] == queue;
      return None;
    }

    /** One polled task, a deferred subscribe or publish. */
    method RunOne(task: Task) returns (thrown: Option<ClientError>)
      requires Valid()
      modifies this
      ensures Valid()
      ensures Outcome(State(), thrown) == RunTask(old(State()), task)
    {
      match task {
        case SubscribeTask(topics, qos, consumer) =>
          thrown := Subscribe0(topics, qos, consumer);
        case PublishTask(topic, qos, payload, retain, consumer) =>
          Publish0(topic, qos, payload, retain, consumer);
          thrown := None;
      }
    }

    /** The corrected SUBACK consumer's loop over the subscriptions. */
    method RecordGranted(subs: seq<TopicSubscription>, granted: seq<QoS>, consumer: CallbackId)
      requires |subs| == |granted|
      modifies this
      ensures State() == old(State()).(subscribes := RecordSubAck(old(subscribes), old(events), subs, granted, consumer, 0).0,
                                       events := RecordSubAck(old(subscribes), old(events), subs, granted, consumer, 0).1)
    {
      var i := 0;
      while i < |subs|
        invariant 0 <= i <= |subs|
        invariant RecordSubAck(subscribes, events, subs, granted, consumer, i) ==
                  RecordSubAck(old(subscribes), old(events), subs, granted, consumer, 0)
        invariant State() == old(State()).(subscribes := subscribes, events := events)
      {
        var subscription := subs[i];
        var minQos := MinQoS(subscription.qos, granted[i]);
        events := events + [TopicListenerSubscribe(subscription.topicFilter, if granted[i] == FAILURE then FAILURE else minQos)];
        if granted[i] != FAILURE {
          subscribes := subscribes[subscription.topicFilter := Subscription(subscription.topicFilter, minQos, consumer)];
        }
        i := i + 1;
      }
    }

    method NotifyResponse(msg: Response) returns (r: Result<(), ClientError>)
      requires Valid()
      modifies this
      ensures Valid()
      ensures NotifyResponseSpec(old(State()), msg).Success? ==>
        r.Success? && State() == NotifyResponseSpec(old(State()), msg).value
      ensures NotifyResponseSpec(old(State()), msg).Failure? ==>
        r == Failure(NotifyResponseSpec(old(State()), msg).error) && State() == old(State())
    {
      var id := msg.packetId;
      if id !in responseConsumers {
        return Failure(NoConsumer(id));
      }
      match responseConsumers[id] {
      case SubAckConsumer(subs, qos, consumer) =>
        if !msg.SubAckMsg? {
          return Failure(InvalidMessageType(id));
        }
        if |msg.returnCodes| != |subs| {
          return Failure(SubAckCountMismatch(id));
        }
        RecordGranted(subs, msg.returnCodes, consumer);
      case PubAckConsumer(packetId, consumer) =>
        if !msg.PubAckMsg? {
          return Failure(InvalidMessageType(id));
        }
        responseConsumers := responseConsumers - {packetId};
        events := events + [Delivered(consumer, packetId)];
      case PubRecConsumer(packetId, consumer) =>
        if !msg.PubRecMsg? {
          return Failure(InvalidMessageType(id));
        }
        responseConsumers := responseConsumers[packetId := PubCompConsumer(consumer)];
        Write(PubRelPacket(msg.packetId));
      case PubCompConsumer(consumer) =>
        if !msg.PubCompMsg? {
          return Failure(InvalidMessageType(id));
        }
        events := events + [Delivered(consumer, msg.packetId)];
      }
      return Success(());
    }
  }
}

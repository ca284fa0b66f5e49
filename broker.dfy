/** The broker as objects that change in place: BrokerContextImpl and its
    MqttSessions, held in one arena object whose fields are the registries,
    sessions, cursors and pool-task queue. Every method performs the steps
    of its Java counterpart on the fields and is proved to end in the state
    the matching function of BrokerModel computes. */
module Broker {

  import opened Wrappers
  import opened MqttTypes
  import opened BrokerModel
  import opened BrokerProperties

  /** The forEach of unsubscribe0 over a session's filters: each filter
      drops topic `t`; `held` says whether one of them had it, and so
      whether the topic's consumeOffsets lose the session. */
  method StripTopic(subs: map<string, FilterSubscriber>, t: string)
    returns (acc: map<string, FilterSubscriber>, held: bool)
    ensures acc == StripAll(subs, {t})
    ensures held <==> Holds(subs, t)
  {
    acc := subs;
    var todo := subs.Keys;
    held := false;
    while todo != {}
      invariant todo <= subs.Keys && acc.Keys == subs.Keys
      invariant forall g | g in acc ::
                  acc[g] == if g in todo then subs[g]
                            else subs[g].(topicSubscribers := subs[g].topicSubscribers - {t})
      invariant held <==> exists g | g in subs && g !in todo :: t in subs[g].topicSubscribers
      decreases todo
    {
      var g :| g in todo;
      if t in acc[g].topicSubscribers {
        acc := acc[g := acc[g].(topicSubscribers := acc[g].topicSubscribers - {t})];
        held := true;
      } else {
        assert acc[g] == subs[g].(topicSubscribers := subs[g].topicSubscribers - {t});
      }
      todo := todo - {g};
    }
    assert acc == StripAll(subs, {t});
  }

  class BrokerContext {
    /** The persistence, retained-message and matching collaborators. */
    const providers: Providers

    var topics: map<string, map<SessionId, CursorId>>
    var topicLog: seq<string>
    var grantSessions: map<string, SessionId>
    var sessions: map<SessionId, Session>
    var cursors: map<CursorId, Cursor>
    var nextCursor: nat
    var listeners: seq<Listener>
    var tasks: multiset<Task>
    var published: seq<Publish>
    var storedStates: set<string>

    /** The fields as one BrokerModel.State value. */
    function Snapshot(): State
      reads this
    {
      State(topics, topicLog, grantSessions, sessions, cursors, nextCursor, listeners, tasks, published, storedStates)
    }

    /** A broker with no topics, sessions or pending work. */
    constructor (p: Providers)
      ensures providers == p && Snapshot() == EmptyState()
    {
      providers := p;
      topics := map[];
      topicLog := [];
      grantSessions := map[];
      sessions := map[];
      cursors := map[];
      nextCursor := 0;
      listeners := [];
      tasks := multiset{};
      published := [];
      storedStates := {};
    }

    /** `new MqttSession(...)` followed by the setters the connect processor
        calls: a connected session with no filters and an empty queue, under
        an identity no other session has; `firstPacketId` is the first value
        of its packet-id counter. */
    method OpenSession(clientId: string, cleanSession: bool, authorized: bool, maxInflight: nat, firstPacketId: int)
      returns (sid: SessionId)
      modifies this
      ensures sid !in old(sessions)
      ensures Snapshot() == old(Snapshot()).(sessions := old(sessions)[sid := Session(clientId, authorized, cleanSession,
                                                 false, maxInflight, map[], [], firstPacketId, map[])])
    {
      sid := 0;
      while sid in sessions
        invariant sessions == old(sessions)
        decreases |set x | x in sessions.Keys && x >= sid|
      {
        ghost var above := set x | x in sessions.Keys && x >= sid;
        ghost var above' := set x | x in sessions.Keys && x >= sid + 1;
        assert above == above' + {sid} && sid !in above';
        sid := sid + 1;
      }
      sessions := sessions[sid := Session(clientId, authorized, cleanSession, false, maxInflight, map[], [], firstPacketId, map[])];
    }

    // -------------------------------------------------------------------
    // Session registry
    // -------------------------------------------------------------------

    method AddSession(sid: SessionId)
      modifies this
      ensures Snapshot() == AddSessionSpec(old(Snapshot()), sid)
    {
      if sid in sessions && sessions[sid].clientId !in grantSessions {
        grantSessions := grantSessions[sessions[sid].clientId := sid];
      }
    }

    method RemoveSession(clientId: string) returns (removed: Option<SessionId>)
      modifies this
      ensures (Snapshot(), removed) == RemoveSessionSpec(old(Snapshot()), clientId)
    {
      if IsBlank(clientId) {
        return None;
      }
      removed := if clientId in grantSessions then Some(grantSessions[clientId]) else None;
      grantSessions := grantSessions - {clientId};
    }

    method GetSession(clientId: string) returns (r: Option<SessionId>)
      ensures r == GetSessionSpec(Snapshot(), clientId)
    {
      r := if clientId in grantSessions then Some(grantSessions[clientId]) else None;
    }

    // -------------------------------------------------------------------
    // Topic registry
    // -------------------------------------------------------------------

    /** getOrCreateTopic; the TOPIC_CREATE listeners run synchronously, in
        registration order, before the call returns. */
    method GetOrCreateTopic(name: string, now: int) returns (res: Result<(), BrokerError>)
      modifies this
      ensures (Snapshot(), res) == GetOrCreateTopicSpec(providers, old(Snapshot()), name, now)
    {
      if name in topics {
        return Success(());
      }
      if providers.containsWildcards(name) {
        return Failure(InvalidTopicName);
      }
      topics := topics[name := map[]];
      topicLog := topicLog + [name];
      ghost var s1 := Snapshot();
      var ls := listeners;
      var i := 0;
      while i < |ls|
        invariant 0 <= i <= |ls| && listeners == ls
        invariant FireTopicCreate(providers, s1, name, ls, now) == FireTopicCreate(providers, Snapshot(), name, ls[i..], now)
      {
        var l := ls[i];
        assert ls[i..][1..] == ls[i + 1..];
        FireTopicCreateStep(providers, Snapshot(), name, ls[i..], now);
        if l.session in sessions && !sessions[l.session].disconnect && l.filter in sessions[l.session].subscribers
           && providers.matches(name, l.filter) {
          var _ := Subscribe0Topic(l.session, l.qos, l.filter, name, now);
        }
        i := i + 1;
      }
      res := Success(());
    }

    // -------------------------------------------------------------------
    // Subscribe and unsubscribe
    // -------------------------------------------------------------------

    /** unsubscribe0(topic): each filter that holds a cursor for `t` drops
        it, and the topic drops the session. */
    method Unsubscribe0(sid: SessionId, t: string)
      requires sid in sessions
      modifies this
      ensures Snapshot() == Unsubscribe0Spec(old(Snapshot()), sid, t)
    {
      var acc, held := StripTopic(sessions[sid].subscribers, t);
      if held && t in topics {
        DropSessionOne(topics, sid, t);
        topics := topics[t := topics[t] - {sid}];
      }
      sessions := sessions[sid := sessions[sid].(subscribers := acc)];
    }

    /** subscribe0(qos, topicToken, topic). */
    method Subscribe0Topic(sid: SessionId, qos: QoS, filter: string, t: string, now: int)
      returns (res: Result<CursorId, BrokerError>)
      modifies this
      ensures (Snapshot(), res) == Subscribe0TopicSpec(providers, old(Snapshot()), sid, qos, filter, t, now)
    {
      if sid !in sessions {
        return Failure(UnknownSession);
      }
      if sessions[sid].disconnect {
        return Failure(SessionClosed);
      }
      if t !in topics {
        return Failure(UnknownTopic);
      }
      var c := nextCursor;
      Unsubscribe0(sid, t);
      Attach0(sid, qos, filter, t, now);
      res := Success(c);
    }

    /** The attaching half of subscribe0(qos, topicToken, topic). */
    method Attach0(sid: SessionId, qos: QoS, filter: string, t: string, now: int)
      requires sid in sessions && t in topics
      modifies this
      ensures Snapshot() == Attach(providers, old(Snapshot()), sid, qos, filter, t, now)
    {
      var c: CursorId := nextCursor;
      var sess := sessions[sid];
      var fs := if filter in sess.subscribers
                then sess.subscribers[filter].(topicSubscribers := sess.subscribers[filter].topicSubscribers[t := c])
                else FilterSubscriber(qos, map[t := c]);
      var co: map<SessionId, CursorId> := topics[t][sid := c];
      sessions, topics, cursors, nextCursor, tasks :=
        sessions[sid := sess.(subscribers := sess.subscribers[filter := fs])],
        topics[t := co],
        cursors[c := NewCursor(providers, t, sid, qos, filter, now)],
        c + 1,
        tasks + multiset{RetainTask(c)};
    }

    /** subscribe0(topicFilter, qos, monitor). The wildcard branch walks the
        topics in creation order. */
    method Subscribe0Filter(sid: SessionId, filter: string, qos: QoS, monitor: bool, now: int)
      returns (res: Result<(), BrokerError>)
      modifies this
      ensures (Snapshot(), res) == Subscribe0FilterSpec(providers, old(Snapshot()), sid, filter, qos, monitor, now)
    {
      if !providers.isWildcards(filter) {
        var r1 := GetOrCreateTopic(filter, now);
        if r1.Failure? {
          return r1;
        }
        var r2 := Subscribe0Topic(sid, qos, filter, filter, now);
        res := if r2.Success? then Success(()) else Failure(r2.error);
        return;
      }
      ghost var s0 := Snapshot();
      var names := topicLog;
      var i := 0;
      while i < |names|
        invariant 0 <= i <= |names|
        invariant SubscribeMatching(providers, s0, sid, qos, filter, names, now)
                  == SubscribeMatching(providers, Snapshot(), sid, qos, filter, names[i..], now)
      {
        var t := names[i];
        assert names[i..][1..] == names[i + 1..];
        if t in topics && providers.matches(t, filter) {
          var r1 := Subscribe0Topic(sid, qos, filter, t, now);
          if r1.Failure? {
            return Failure(r1.error);
          }
        }
        i := i + 1;
      }
      if monitor {
        listeners := listeners + [Listener(sid, filter, qos)];
      }
      res := Success(());
    }

    /** subscribe(topicFilter, qos) */
    method Subscribe(sid: SessionId, filter: string, qos: QoS, now: int) returns (res: Result<(), BrokerError>)
      modifies this
      ensures (Snapshot(), res) == SubscribeSpec(providers, old(Snapshot()), sid, filter, qos, now)
    {
      res := Subscribe0Filter(sid, filter, qos, true, now);
    }

    /** resubscribe: the filters, in the iteration order `order`. */
    method Resubscribe(sid: SessionId, order: seq<string>, now: int) returns (res: Result<(), BrokerError>)
      modifies this
      ensures (Snapshot(), res) == ResubscribeSpec(providers, old(Snapshot()), sid, order, now)
    {
      ghost var s0 := Snapshot();
      var i := 0;
      while i < |order|
        invariant 0 <= i <= |order|
        invariant ResubscribeSpec(providers, s0, sid, order, now) == ResubscribeSpec(providers, Snapshot(), sid, order[i..], now)
      {
        assert order[i..][1..] == order[i + 1..];
        if sid in sessions && order[i] in sessions[sid].subscribers {
          var r1 := Subscribe0Filter(sid, order[i], sessions[sid].subscribers[order[i]].qos, false, now);
          if r1.Failure? {
            return r1;
          }
        }
        i := i + 1;
      }
      res := Success(());
    }

    /** unsubscribe(topicFilter), corrected: each topic the filter holds is
        unsubscribed while the filter is still registered, then the filter
        entry is removed. */
    method Unsubscribe(sid: SessionId, f: string)
      requires sid in sessions && f in sessions[sid].subscribers
      modifies this
      ensures Snapshot() == UnsubscribeSpec(old(Snapshot()), sid, f)
    {
      ghost var s0 := Snapshot();
      UnsubscribeTopics(sid, f);
      Unsubscribed0All(s0, sid, f);
      sessions := sessions[sid := sessions[sid].(subscribers := sessions[sid].subscribers - {f})];
    }

    /** The forEach of unsubscribe over the topics filter `f` holds. */
    method UnsubscribeTopics(sid: SessionId, f: string)
      requires sid in sessions && f in sessions[sid].subscribers
      modifies this
      ensures Snapshot() == Unsubscribed0Some(old(Snapshot()), sid, old(sessions[sid].subscribers[f].topicSubscribers.Keys))
    {
      ghost var s0 := Snapshot();
      var todo := sessions[sid].subscribers[f].topicSubscribers.Keys;
      ghost var done: set<string> := {};
      Unsubscribed0None(s0, sid);
      while todo != {}
        invariant todo + done == s0.sessions[sid].subscribers[f].topicSubscribers.Keys && todo * done == {}
        invariant sid in sessions && Snapshot() == Unsubscribed0Some(s0, sid, done)
        decreases todo
      {
        var u :| u in todo;
        Unsubscribe0OneMore(s0, sid, f, done, u);
        Unsubscribe0(sid, u);
        todo := todo - {u};
        done := done + {u};
      }
    }

    /** disconnect. The filters are unsubscribed (corrected unsubscribe) in
        any order; a different session found under the client id is
        disconnected as well. */
    method Disconnect(sid: SessionId)
      requires sid in sessions
      modifies this
      ensures Snapshot() == DisconnectSpec(old(Snapshot()), sid)
      decreases grantSessions.Keys
    {
      if sessions[sid].disconnect {
        return;
      }
      var removed := DisconnectFirst(sid);
      if removed.Some? && removed.value != sid && removed.value in sessions {
        Disconnect(removed.value);
      }
      sessions := sessions[sid := sessions[sid].(disconnect := true)];
    }

    /** The part of disconnect before the registry's other session is
        dealt with: the stored state, every filter, the registry entry. */
    method DisconnectFirst(sid: SessionId) returns (removed: Option<SessionId>)
      requires sid in sessions
      modifies this
      ensures (Snapshot(), removed) == DisconnectPrefix(old(Snapshot()), sid)
    {
      var sess := sessions[sid];
      if sess.authorized && sess.cleanSession {
        storedStates := storedStates - {sess.clientId};
      }
      ghost var s1 := Snapshot();
      var todo := sessions[sid].subscribers.Keys;
      ghost var done: set<string> := {};
      UnsubscribedNone(s1, sid);
      while todo != {}
        invariant todo + done == s1.sessions[sid].subscribers.Keys && todo * done == {}
        invariant Snapshot() == UnsubscribedSome(s1, sid, done)
        decreases todo
      {
        var f :| f in todo;
        UnsubscribeOneMore(s1, sid, done, f);
        Unsubscribe(sid, f);
        todo := todo - {f};
        done := done + {f};
      }
      UnsubscribedAll(s1, sid);
      removed := RemoveSession(sess.clientId);
    }

    // -------------------------------------------------------------------
    // Delivery
    // -------------------------------------------------------------------

    /** One PUBLISH of `m` for cursor `c`: session.newPacketId,
        inflightQueue.add and session.publish with its callback. */
    method Send(c: CursorId, m: StoredMessage, retained: bool)
      requires c in cursors && cursors[c].session in sessions
      modifies this
      ensures Snapshot() == SendOne(old(Snapshot()), c, m, retained)
    {
      var cur := cursors[c];
      var sess := sessions[cur.session];
      var pid := sess.nextPacketId;
      var index := |sess.inflight|;
      var consumer := if retained then RetainAck(c, index) else PushAck(c, index, m.createTime);
      sessions := sessions[cur.session := sess.(nextPacketId := pid + 1,
                                                inflight := sess.inflight + [InflightEntry(pid, m.offset)],
                                                pending := sess.pending[pid := consumer])];
      published := published + [Publish(cur.session, pid, m.topic, cur.qos, m.payload, m.offset, retained)];
    }

    /** batchPublish(consumeOffset): publish0 runs only if the permit is
        acquired. */
    method BatchPublish(c: CursorId)
      modifies this
      ensures Snapshot() == BatchPublishSpec(providers, old(Snapshot()), c)
      decreases Room(Snapshot(), c), 1
    {
      if !(c in cursors && cursors[c].session in sessions) || !cursors[c].gateFree {
        return;
      }
      cursors := cursors[c := cursors[c].(gateFree := false)];
      Publish0(c);
    }

    /** The while loop of publish0: stored messages from the cursor's next
        offset are sent until the session's in-flight queue is full or the
        log has no entry at the next offset; `count` is how many were sent. */
    method PushRun(c: CursorId) returns (count: nat)
      requires c in cursors && cursors[c].session in sessions
      modifies this
      ensures (Snapshot(), count) == PushLoop(providers, old(Snapshot()), c, old(cursors[c].nextConsumerOffset), 0)
    {
      ghost var s0 := Snapshot();
      var cur := cursors[c];
      var next := cur.nextConsumerOffset;
      count := 0;
      while !sessions[cur.session].IsFull()
        invariant cursors == s0.cursors && cur.session in sessions
        invariant PushLoop(providers, s0, c, next, 0) == PushLoop(providers, Snapshot(), c, next, count)
        decreases sessions[cur.session].Room()
      {
        var m := providers.persistenceGet(cur.topic, next + count);
        if m.None? {
          break;
        }
        PushLoopStep(providers, Snapshot(), c, next, count);
        Send(c, m.value, false);
        count := count + 1;
      }
      PushLoopStops(providers, Snapshot(), c, next, count);
    }

    /** publish0(consumeOffset): the push loop, the release of the permit
        when nothing was sent, and the retry. */
    method Publish0(c: CursorId)
      modifies this
      ensures Snapshot() == Publish0Spec(providers, old(Snapshot()), c)
      decreases Room(Snapshot(), c), 0
    {
      if !(c in cursors && cursors[c].session in sessions) {
        return;
      }
      var cur := cursors[c];
      var count := PushRun(c);
      if count == 0 {
        cursors := cursors[c := cursors[c].(gateFree := true)];
      }
      if !sessions[cur.session].IsFull() && providers.persistenceGet(cur.topic, cur.nextConsumerOffset).Some? {
        BatchPublish(c);
      }
    }

    /** The SUBSCRIBE_TOPIC retained-replay task. */
    method ReplayRetained(c: CursorId)
      modifies this
      ensures Snapshot() == RetainTaskSpec(providers, old(Snapshot()), c)
    {
      if !(c in cursors && cursors[c].session in sessions) {
        return;
      }
      var cur := cursors[c];
      var stored := providers.retainGet(cur.topic, cur.retainConsumerOffset);
      if stored.None? || stored.value.createTime > cur.latestSubscribeTime {
        BatchPublish(c);
        return;
      }
      Send(c, stored.value, true);
    }

    /** The push pool runs pending task `t`. */
    method RunTask(t: Task)
      requires t in tasks
      modifies this
      ensures Snapshot() == RunTaskSpec(providers, old(Snapshot()), t)
    {
      tasks := tasks - multiset{t};
      match t {
        case BatchPublishTask(c) => BatchPublish(c);
        case Publish0Task(c) => Publish0(c);
        case RetainTask(c) => ReplayRetained(c);
      }
    }

    /** BrokerContextImpl.batchPublish(topic): one batchPublish task for each
        cursor of the topic whose permit is free. */
    method BatchPublishTopic(t: string)
      modifies this
      ensures Snapshot() == BatchPublishTopicSpec(old(Snapshot()), t)
    {
      if t !in topics {
        return;
      }
      var offsets := topics[t];
      var todo := offsets.Keys;
      var ready: set<CursorId> := {};
      while todo != {}
        invariant todo <= offsets.Keys
        invariant ready == set x | x in offsets.Keys - todo && offsets[x] in cursors && cursors[offsets[x]].gateFree :: offsets[x]
        decreases todo
      {
        var x :| x in todo;
        if offsets[x] in cursors && cursors[offsets[x]].gateFree {
          ready := ready + {offsets[x]};
        }
        todo := todo - {x};
      }
      tasks := tasks + BatchTasks(ready);
    }

    /** The callback registered by publish0: the committed offset moves
        `nextConsumerOffset`; a finished batch clears the queue and either
        releases the permit or resubmits publish0. */
    method OnPushAck(sid: SessionId, c: CursorId, createTime: int, advancedTo: Option<int>, done: bool)
      requires sid in sessions && c in cursors
      modifies this
      ensures Snapshot() == PushAckSpec(providers, old(Snapshot()), sid, c, createTime, advancedTo, done)
    {
      var cur := cursors[c];
      if advancedTo.Some? {
        cur := cur.(nextConsumerOffset := advancedTo.value + 1);
      }
      if !done {
        cursors := cursors[c := cur];
        return;
      }
      cur := cur.(retainConsumerTimestamp := Some(createTime));
      sessions := sessions[sid := sessions[sid].(inflight := [])];
      if providers.persistenceGet(cur.topic, cur.nextConsumerOffset).None? {
        cursors := cursors[c := cur.(gateFree := true)];
      } else {
        cursors := cursors[c := cur];
        tasks := tasks + multiset{Publish0Task(c)};
      }
    }

    /** The callback registered by the retained replay: the committed offset
        moves `retainConsumerOffset`, the queue is cleared and the replay
        task is scheduled again. */
    method OnRetainAck(sid: SessionId, c: CursorId, advancedTo: Option<int>)
      requires sid in sessions && c in cursors
      modifies this
      ensures Snapshot() == RetainAckSpec(old(Snapshot()), sid, c, advancedTo)
    {
      var cur := cursors[c];
      if advancedTo.Some? {
        cur := cur.(retainConsumerOffset := advancedTo.value + 1);
      }
      cursors := cursors[c := cur];
      sessions := sessions[sid := sessions[sid].(inflight := [])];
      tasks := tasks + multiset{RetainTask(c)};
    }

    /** An acknowledgement of `packetId` reaching session `sid`, with the
        InflightQueue.commit outcome: the registered callback is taken out
        and run. */
    method OnAck(sid: SessionId, packetId: int, advancedTo: Option<int>, done: bool)
      modifies this
      ensures Snapshot() == AckSpec(providers, old(Snapshot()), sid, packetId, advancedTo, done)
    {
      if sid !in sessions || packetId !in sessions[sid].pending {
        return;
      }
      var consumer := sessions[sid].pending[packetId];
      sessions := sessions[sid := sessions[sid].(pending := sessions[sid].pending - {packetId})];
      if consumer.cursor !in cursors {
        return;
      }
      match consumer {
        case PushAck(c, _, createTime) => OnPushAck(sid, c, createTime, advancedTo, done);
        case RetainAck(c, _) => OnRetainAck(sid, c, advancedTo);
      }
    }
  }
}

/** Properties of the broker engine of module BrokerModel: what subscribe,
    unsubscribe and disconnect do to the two subscription maps, the topic
    registry's create-once log, the push loop's consecutive offsets, the
    permit and the acknowledgement callbacks. */
module BrokerProperties {

  import opened Wrappers
  import opened MqttTypes
  import opened BrokerModel

  // ---------------------------------------------------------------------
  // Topic registry
  // ---------------------------------------------------------------------

  /** TOPIC_CREATE has been published exactly once per topic in the
      registry, and for nothing else. */
  ghost predicate TopicLogExact(s: State) {
    && (forall i, j | 0 <= i < j < |s.topicLog| :: s.topicLog[i] != s.topicLog[j])
    && (forall t :: t in s.topics <==> t in s.topicLog)
  }

  /** getOrCreateTopic keeps the TOPIC_CREATE log exact and lengthens it by
      one exactly when it creates a topic. */
  lemma GetOrCreateTopicOnce(p: Providers, s: State, name: string, now: int)
    requires TopicLogExact(s)
    ensures var r := GetOrCreateTopicSpec(p, s, name, now).0;
            && TopicLogExact(r)
            && |r.topicLog| == |s.topicLog| + (if name in s.topics || p.containsWildcards(name) then 0 else 1)
  {
    var r := GetOrCreateTopicSpec(p, s, name, now).0;
    if name !in s.topics && !p.containsWildcards(name) {
      assert r.topicLog == s.topicLog + [name];
      forall i, j | 0 <= i < j < |r.topicLog|
        ensures r.topicLog[i] != r.topicLog[j]
      {
        if j == |s.topicLog| {
          assert r.topicLog[i] == s.topicLog[i];
          assert s.topicLog[i] in s.topics;
        }
      }
      forall t
        ensures t in r.topics <==> t in r.topicLog
      {
        assert t in r.topicLog <==> t in s.topicLog || t == name;
      }
    }
  }

  /** A second getOrCreateTopic of a name just obtained changes nothing. */
  lemma GetOrCreateTopicIdempotent(p: Providers, s: State, name: string, now: int, later: int)
    requires GetOrCreateTopicSpec(p, s, name, now).1.Success?
    ensures var r := GetOrCreateTopicSpec(p, s, name, now).0;
            GetOrCreateTopicSpec(p, r, name, later) == (r, Success(()))
  {
  }

  // ---------------------------------------------------------------------
  // Subscribe
  // ---------------------------------------------------------------------

  /** subscribe0 for topic `t` leaves the session's cursors for every other
      topic where they were. */
  lemma Subscribe0KeepsOtherTopics(p: Providers, s: State, sid: SessionId, qos: QoS, filter: string, t: string, now: int,
                                   g: string, u: string)
    requires sid in s.sessions && g in s.sessions[sid].subscribers
    requires u != t && u in s.sessions[sid].subscribers[g].topicSubscribers
    ensures var r := Subscribe0TopicSpec(p, s, sid, qos, filter, t, now).0;
            && g in r.sessions[sid].subscribers
            && u in r.sessions[sid].subscribers[g].topicSubscribers
            && r.sessions[sid].subscribers[g].topicSubscribers[u] == s.sessions[sid].subscribers[g].topicSubscribers[u]
  {
    var (r, res) := Subscribe0TopicSpec(p, s, sid, qos, filter, t, now);
    if res.Success? {
      var s1 := Unsubscribe0Spec(s, sid, t);
      assert s1.sessions[sid].subscribers[g].topicSubscribers[u] == s.sessions[sid].subscribers[g].topicSubscribers[u];
    }
  }

  /** The wildcard walk never takes a topic away from the filter it
      subscribes. */
  lemma {:induction false} SubscribeMatchingKeeps(p: Providers, s: State, sid: SessionId, qos: QoS, filter: string,
                                                  names: seq<string>, now: int, u: string)
    requires sid in s.sessions && filter in s.sessions[sid].subscribers
    requires u in s.sessions[sid].subscribers[filter].topicSubscribers
    ensures var r := SubscribeMatching(p, s, sid, qos, filter, names, now).0;
            filter in r.sessions[sid].subscribers && u in r.sessions[sid].subscribers[filter].topicSubscribers
    decreases |names|
  {
    if names != [] {
      var t := names[0];
      if t in s.topics && p.matches(t, filter) {
        var (s1, r1) := Subscribe0TopicSpec(p, s, sid, qos, filter, t, now);
        if r1.Success? {
          if u != t {
            Subscribe0KeepsOtherTopics(p, s, sid, qos, filter, t, now, filter, u);
          }
          SubscribeMatchingKeeps(p, s1, sid, qos, filter, names[1..], now, u);
        }
      } else {
        SubscribeMatchingKeeps(p, s, sid, qos, filter, names[1..], now, u);
      }
    }
  }

  /** A successful wildcard walk leaves the filter holding a cursor for every
      walked topic it matches. */
  lemma {:induction false} SubscribeMatchingAttaches(p: Providers, s: State, sid: SessionId, qos: QoS, filter: string,
                                                     names: seq<string>, now: int)
    requires sid in s.sessions
    ensures var (r, res) := SubscribeMatching(p, s, sid, qos, filter, names, now);
            res.Success? ==>
              forall t | t in names && t in s.topics && p.matches(t, filter) ::
                filter in r.sessions[sid].subscribers && t in r.sessions[sid].subscribers[filter].topicSubscribers
    decreases |names|
  {
    if names != [] {
      var t0 := names[0];
      if t0 in s.topics && p.matches(t0, filter) {
        var (s1, r1) := Subscribe0TopicSpec(p, s, sid, qos, filter, t0, now);
        if r1.Success? {
          SubscribeMatchingAttaches(p, s1, sid, qos, filter, names[1..], now);
          SubscribeMatchingKeeps(p, s1, sid, qos, filter, names[1..], now, t0);
          assert forall t | t in names :: t == t0 || t in names[1..];
        }
      } else {
        SubscribeMatchingAttaches(p, s, sid, qos, filter, names[1..], now);
        assert forall t | t in names :: t == t0 || t in names[1..];
      }
    }
  }

  /** A wildcard subscribe that succeeds attaches the filter to every
      existing topic it matches, leaves every other topic alone, and adds a
      TOPIC_CREATE listener exactly when `monitor` is set. */
  lemma WildcardSubscribe(p: Providers, s: State, sid: SessionId, filter: string, qos: QoS, monitor: bool, now: int)
    requires TopicLogExact(s) && sid in s.sessions && p.isWildcards(filter)
    ensures var (r, res) := Subscribe0FilterSpec(p, s, sid, filter, qos, monitor, now);
            && (forall u | u in s.topics && !p.matches(u, filter) :: r.topics[u] == s.topics[u])
            && (res.Success? ==>
                  && (forall t | t in s.topics && p.matches(t, filter) ::
                        filter in r.sessions[sid].subscribers && t in r.sessions[sid].subscribers[filter].topicSubscribers)
                  && r.listeners == s.listeners + (if monitor then [Listener(sid, filter, qos)] else []))
  {
    SubscribeMatchingAttaches(p, s, sid, qos, filter, s.topicLog, now);
  }

  /** A literal filter only ever touches the topic of the same name; when
      it succeeds that topic exists and maps the session to the cursor the
      filter holds. */
  lemma LiteralSubscribe(p: Providers, s: State, sid: SessionId, filter: string, qos: QoS, monitor: bool, now: int)
    requires !p.isWildcards(filter)
    ensures var (r, res) := Subscribe0FilterSpec(p, s, sid, filter, qos, monitor, now);
            && (forall u | u in s.topics && u != filter :: r.topics[u] == s.topics[u])
            && (res.Success? ==>
                  && filter in r.topics && sid in r.sessions && filter in r.sessions[sid].subscribers
                  && filter in r.sessions[sid].subscribers[filter].topicSubscribers
                  && sid in r.topics[filter]
                  && r.topics[filter][sid] == r.sessions[sid].subscribers[filter].topicSubscribers[filter])
  {
    var (s1, r1) := GetOrCreateTopicSpec(p, s, filter, now);
    if r1.Success? {
      var (s2, r2) := Subscribe0TopicSpec(p, s1, sid, qos, filter, filter, now);
    }
  }

  // ---------------------------------------------------------------------
  // Disconnect
  // ---------------------------------------------------------------------

  /** From `a` to `b` nothing was added: no session gained a filter, no
      disconnect flag was cleared, no stored state or registry entry
      appeared. */
  ghost predicate Shrinks(a: State, b: State) {
    && b.sessions.Keys == a.sessions.Keys
    && b.storedStates <= a.storedStates
    && b.grantSessions.Keys <= a.grantSessions.Keys
    && (forall x | x in a.sessions ::
          && b.sessions[x].subscribers.Keys <= a.sessions[x].subscribers.Keys
          && (a.sessions[x].disconnect ==> b.sessions[x].disconnect))
  }

  lemma ShrinksTransitive(a: State, b: State, c: State)
    requires Shrinks(a, b) && Shrinks(b, c)
    ensures Shrinks(a, c)
  {
  }

  lemma DisconnectPrefixShrinks(s: State, sid: SessionId)
    requires sid in s.sessions
    ensures Shrinks(s, DisconnectPrefix(s, sid).0)
  {
  }

  lemma SetDisconnectShrinks(s: State, sid: SessionId)
    requires sid in s.sessions
    ensures Shrinks(s, s.(sessions := s.sessions[sid := s.sessions[sid].(disconnect := true)]))
  {
  }

  /** disconnect only takes things away. */
  lemma {:induction false} DisconnectMonotone(s: State, sid: SessionId)
    requires sid in s.sessions
    ensures Shrinks(s, DisconnectSpec(s, sid))
    decreases s.grantSessions.Keys
  {
    if !s.sessions[sid].disconnect {
      var (s3, removed) := DisconnectPrefix(s, sid);
      DisconnectPrefixShrinks(s, sid);
      var s4 := s3;
      if removed.Some? && removed.value != sid && removed.value in s3.sessions {
        DisconnectMonotone(s3, removed.value);
        s4 := DisconnectSpec(s3, removed.value);
        ShrinksTransitive(s, s3, s4);
      }
      SetDisconnectShrinks(s4, sid);
      ShrinksTransitive(s, s4, DisconnectSpec(s, sid));
    }
  }

  /** What disconnect of a connected session guarantees: it ends with no
      filters; an authorized clean session's stored state is gone; the
      registry no longer maps its (non-blank) client id. */
  lemma DisconnectEffects(s: State, sid: SessionId)
    requires sid in s.sessions && !s.sessions[sid].disconnect
    ensures var r := DisconnectSpec(s, sid);
            var sess := s.sessions[sid];
            && r.sessions[sid].disconnect
            && r.sessions[sid].subscribers == map[]
            && (sess.authorized && sess.cleanSession ==> sess.clientId !in r.storedStates)
            && (!IsBlank(sess.clientId) ==> sess.clientId !in r.grantSessions)
  {
    var (s3, removed) := DisconnectPrefix(s, sid);
    if removed.Some? && removed.value != sid && removed.value in s3.sessions {
      DisconnectMonotone(s3, removed.value);
      var s4 := DisconnectSpec(s3, removed.value);
      assert s4.sessions[sid].subscribers.Keys == {};
      assert s4.sessions[sid].subscribers == map[];
    }
  }

  /** disconnect is idempotent. */
  lemma DisconnectIdempotent(s: State, sid: SessionId)
    requires sid in s.sessions
    ensures DisconnectSpec(DisconnectSpec(s, sid), sid) == DisconnectSpec(s, sid)
  {
  }

  /** The state after the filters in `done` of session `sid` have been
      unsubscribed one by one (corrected unsubscribe), in any order. */
  function UnsubscribedSome(s: State, sid: SessionId, done: set<string>): (r: State)
    requires sid in s.sessions
  {
    var subs := s.sessions[sid].subscribers;
    var held := HeldBy(subs, done);
    s.(topics := DropSession(s.topics, sid, held),
       sessions := s.sessions[sid := s.sessions[sid].(subscribers := StripAll(subs - done, held))])
  }

  lemma StripAllNone(subs: map<string, FilterSubscriber>)
    ensures StripAll(subs, {}) == subs
  {
    forall g | g in subs
      ensures subs[g].topicSubscribers - {} == subs[g].topicSubscribers
    {
    }
  }

  lemma DropSessionNone(topics: map<string, map<SessionId, CursorId>>, sid: SessionId)
    ensures DropSession(topics, sid, {}) == topics
  {
  }

  lemma UnsubscribedNone(s: State, sid: SessionId)
    requires sid in s.sessions
    ensures UnsubscribedSome(s, sid, {}) == s
  {
    var subs := s.sessions[sid].subscribers;
    assert HeldBy(subs, {}) == {};
    assert subs - {} == subs;
    StripAllNone(subs);
    DropSessionNone(s.topics, sid);
    assert s.sessions[sid].(subscribers := subs) == s.sessions[sid];
    assert s.sessions[sid := s.sessions[sid]] == s.sessions;
  }

  lemma DropSessionTwice(topics: map<string, map<SessionId, CursorId>>, sid: SessionId, a: set<string>, b: set<string>)
    ensures DropSession(DropSession(topics, sid, a), sid, b) == DropSession(topics, sid, a + b)
  {
    forall t | t in topics
      ensures DropSession(DropSession(topics, sid, a), sid, b)[t] == DropSession(topics, sid, a + b)[t]
    {
    }
  }

  lemma HoldsOf(subs: map<string, FilterSubscriber>, f: string, t: string)
    requires f in subs && t in subs[f].topicSubscribers
    ensures Holds(subs, t)
  {
  }

  /** Dropping the session from one topic is the single map update. */
  lemma DropSessionOne(topics: map<string, map<SessionId, CursorId>>, sid: SessionId, t: string)
    ensures DropSession(topics, sid, {t}) == if t in topics then topics[t := topics[t] - {sid}] else topics
  {
  }

  lemma StripAllTwice(subs: map<string, FilterSubscriber>, a: set<string>, b: set<string>)
    ensures StripAll(StripAll(subs, a), b) == StripAll(subs, a + b)
  {
    forall g | g in subs
      ensures subs[g].topicSubscribers - a - b == subs[g].topicSubscribers - (a + b)
    {
    }
  }

  lemma StripAllRemove(subs: map<string, FilterSubscriber>, f: string, ts: set<string>)
    ensures StripAll(subs, ts) - {f} == StripAll(subs - {f}, ts)
  {
  }

  lemma OneMoreTopics(s: State, sid: SessionId, done: set<string>, f: string)
    requires sid in s.sessions && f in s.sessions[sid].subscribers && f !in done
    ensures var m := UnsubscribedSome(s, sid, done);
            var subs := s.sessions[sid].subscribers;
            && f in m.sessions[sid].subscribers
            && DropSession(m.topics, sid, m.sessions[sid].subscribers[f].topicSubscribers.Keys)
               == DropSession(s.topics, sid, HeldBy(subs, done + {f}))
  {
    var subs := s.sessions[sid].subscribers;
    var held := HeldBy(subs, done);
    var m := UnsubscribedSome(s, sid, done);
    var ts := m.sessions[sid].subscribers[f].topicSubscribers.Keys;
    assert ts == subs[f].topicSubscribers.Keys - held;
    assert HeldBy(subs, done + {f}) == held + ts;
    DropSessionTwice(s.topics, sid, held, ts);
  }

  lemma OneMoreFilters(s: State, sid: SessionId, done: set<string>, f: string)
    requires sid in s.sessions && f in s.sessions[sid].subscribers && f !in done
    ensures var m := UnsubscribedSome(s, sid, done);
            var subs := s.sessions[sid].subscribers;
            && f in m.sessions[sid].subscribers
            && StripAll(m.sessions[sid].subscribers - {f}, m.sessions[sid].subscribers[f].topicSubscribers.Keys)
               == StripAll(subs - (done + {f}), HeldBy(subs, done + {f}))
  {
    var subs := s.sessions[sid].subscribers;
    var held := HeldBy(subs, done);
    var m := UnsubscribedSome(s, sid, done);
    var ts := m.sessions[sid].subscribers[f].topicSubscribers.Keys;
    assert ts == subs[f].topicSubscribers.Keys - held;
    assert HeldBy(subs, done + {f}) == held + ts;
    StripAllRemove(subs - done, f, held);
    StripAllTwice(subs - done - {f}, held, ts);
    assert subs - done - {f} == subs - (done + {f});
  }

  /** Unsubscribing one more filter `f` extends `done` by `f`. */
  lemma UnsubscribeOneMore(s: State, sid: SessionId, done: set<string>, f: string)
    requires sid in s.sessions && f in s.sessions[sid].subscribers && f !in done
    ensures var m := UnsubscribedSome(s, sid, done);
            && f in m.sessions[sid].subscribers
            && UnsubscribeSpec(m, sid, f) == UnsubscribedSome(s, sid, done + {f})
  {
    OneMoreTopics(s, sid, done, f);
    OneMoreFilters(s, sid, done, f);
  }

  /** The state after unsubscribe0 has run, for session `sid`, on each
      topic name in `done`, none of which any filter still holds. */
  function Unsubscribed0Some(s: State, sid: SessionId, done: set<string>): (r: State)
    requires sid in s.sessions
    ensures r.sessions.Keys == s.sessions.Keys
  {
    s.(topics := DropSession(s.topics, sid, done),
       sessions := s.sessions[sid := s.sessions[sid].(subscribers := StripAll(s.sessions[sid].subscribers, done))])
  }

  lemma Unsubscribed0None(s: State, sid: SessionId)
    requires sid in s.sessions
    ensures Unsubscribed0Some(s, sid, {}) == s
  {
    StripAllNone(s.sessions[sid].subscribers);
    DropSessionNone(s.topics, sid);
    assert s.sessions[sid := s.sessions[sid]] == s.sessions;
  }

  /** unsubscribe0 on one more topic `u` that filter `f` holds. */
  lemma Unsubscribe0OneMore(s: State, sid: SessionId, f: string, done: set<string>, u: string)
    requires sid in s.sessions && f in s.sessions[sid].subscribers
    requires u in s.sessions[sid].subscribers[f].topicSubscribers && u !in done
    ensures Unsubscribe0Spec(Unsubscribed0Some(s, sid, done), sid, u) == Unsubscribed0Some(s, sid, done + {u})
  {
    var m := Unsubscribed0Some(s, sid, done);
    HoldsOf(m.sessions[sid].subscribers, f, u);
    Unsubscribe0Held(m, sid, u);
    Unsubscribed0Twice(s, sid, done, {u});
  }

  /** unsubscribe0 on a topic the session holds is Unsubscribed0Some on
      that one topic. */
  lemma Unsubscribe0Held(s: State, sid: SessionId, u: string)
    requires sid in s.sessions && Holds(s.sessions[sid].subscribers, u)
    ensures Unsubscribe0Spec(s, sid, u) == Unsubscribed0Some(s, sid, {u})
  {
  }

  /** Unsubscribed0Some on `a` and then on `b` is Unsubscribed0Some on
      both. */
  lemma Unsubscribed0Twice(s: State, sid: SessionId, a: set<string>, b: set<string>)
    requires sid in s.sessions
    ensures Unsubscribed0Some(Unsubscribed0Some(s, sid, a), sid, b) == Unsubscribed0Some(s, sid, a + b)
  {
    DropSessionTwice(s.topics, sid, a, b);
    StripAllTwice(s.sessions[sid].subscribers, a, b);
  }

  /** Every topic of filter `f` unsubscribed, then `f` removed: the
      corrected unsubscribe. */
  lemma Unsubscribed0All(s: State, sid: SessionId, f: string)
    requires sid in s.sessions && f in s.sessions[sid].subscribers
    ensures var m := Unsubscribed0Some(s, sid, s.sessions[sid].subscribers[f].topicSubscribers.Keys);
            m.(sessions := m.sessions[sid := m.sessions[sid].(subscribers := m.sessions[sid].subscribers - {f})])
            == UnsubscribeSpec(s, sid, f)
  {
    StripAllRemove(s.sessions[sid].subscribers, f, s.sessions[sid].subscribers[f].topicSubscribers.Keys);
  }

  /** Unsubscribing every filter, one at a time, is UnsubscribeAllSpec. */
  lemma UnsubscribedAll(s: State, sid: SessionId)
    requires sid in s.sessions
    ensures UnsubscribedSome(s, sid, s.sessions[sid].subscribers.Keys) == UnsubscribeAllSpec(s, sid)
  {
    var subs := s.sessions[sid].subscribers;
    assert subs - subs.Keys == map[];
  }

  // ---------------------------------------------------------------------
  // Delivery
  // ---------------------------------------------------------------------

  /** The log of the cursor's topic has an entry at `offset`. */
  predicate LogHas(p: Providers, topic: string, offset: int) {
    p.persistenceGet(topic, offset).Some?
  }

  /** The at most `n` PUBLISH packets the push loop sends for `cur` from log
      offset `from` on, numbered from packet id `pid`; the run stops at the
      first offset the log does not hold. */
  function Pushed(p: Providers, cur: Cursor, pid: int, from: int, n: nat): (r: seq<Publish>)
    ensures |r| <= n
    ensures (forall o | from <= o < from + n :: LogHas(p, cur.topic, o)) ==> |r| == n
    decreases n
  {
    if n == 0 then []
    else
      match p.persistenceGet(cur.topic, from)
      case None => assert !LogHas(p, cur.topic, from); []
      case Some(m) =>
        [Publish(cur.session, pid, m.topic, cur.qos, m.payload, m.offset, false)] + Pushed(p, cur, pid + 1, from + 1, n - 1)
  }

  /** The matching in-flight queue entries. */
  function Queued(p: Providers, cur: Cursor, pid: int, from: int, n: nat): (r: seq<InflightEntry>)
    ensures |r| <= n
    ensures (forall o | from <= o < from + n :: LogHas(p, cur.topic, o)) ==> |r| == n
    decreases n
  {
    if n == 0 then []
    else
      match p.persistenceGet(cur.topic, from)
      case None => assert !LogHas(p, cur.topic, from); []
      case Some(m) => [InflightEntry(pid, m.offset)] + Queued(p, cur, pid + 1, from + 1, n - 1)
  }

  /** The j-th packet sent carries the entry at offset `from + j` and packet
      id `pid + j`. */
  lemma {:induction false} PushedAt(p: Providers, cur: Cursor, pid: int, from: int, n: nat, j: nat)
    requires forall o | from <= o < from + n :: LogHas(p, cur.topic, o)
    requires j < n
    ensures LogHas(p, cur.topic, from + j)
    ensures var m := p.persistenceGet(cur.topic, from + j).value;
            && Pushed(p, cur, pid, from, n)[j] == Publish(cur.session, pid + j, m.topic, cur.qos, m.payload, m.offset, false)
            && Queued(p, cur, pid, from, n)[j] == InflightEntry(pid + j, m.offset)
    decreases j
  {
    if j > 0 {
      PushedAt(p, cur, pid + 1, from + 1, n - 1, j - 1);
    }
  }

  /** The push loop from `next`, having sent `k` entries, reads the log at
      the consecutive offsets `next + k`, `next + k + 1`, ... and finds an
      entry at each offset it sends (PushLoop's own contract adds that it
      stops at the first absent offset or when the queue is full). */
  lemma {:induction false} PushLoopConsecutive(p: Providers, s: State, c: CursorId, next: int, k: nat)
    requires Live(s, c)
    ensures var count := PushLoop(p, s, c, next, k).1;
            forall o | next + k <= o < next + count :: LogHas(p, s.cursors[c].topic, o)
    decreases s.sessions[s.cursors[c].session].Room()
  {
    var cur := s.cursors[c];
    if !s.sessions[cur.session].IsFull() && p.persistenceGet(cur.topic, next + k).Some? {
      var s1 := SendOne(s, c, p.persistenceGet(cur.topic, next + k).value, false);
      PushLoopConsecutive(p, s1, c, next, k + 1);
    }
  }

  /** One round of the push loop: with room in the queue and an entry at
      `next + k`, the loop sends that entry and carries on from `k + 1`. */
  lemma PushLoopStep(p: Providers, s: State, c: CursorId, next: int, k: nat)
    requires Live(s, c)
    requires !s.sessions[s.cursors[c].session].IsFull() && LogHas(p, s.cursors[c].topic, next + k)
    ensures var cur := s.cursors[c];
            var sess := s.sessions[cur.session];
            var m := p.persistenceGet(cur.topic, next + k).value;
            var s1 := SendOne(s, c, m, false);
            && Live(s1, c) && s1.cursors[c] == cur
            && s1.sessions[cur.session].Room() < sess.Room()
            && PushLoop(p, s, c, next, k) == PushLoop(p, s1, c, next, k + 1)
            && s1.published == s.published + [Publish(cur.session, sess.nextPacketId, m.topic, cur.qos, m.payload, m.offset, false)]
            && s1.sessions[cur.session].inflight == sess.inflight + [InflightEntry(sess.nextPacketId, m.offset)]
            && s1.sessions[cur.session].nextPacketId == sess.nextPacketId + 1
  {
  }

  /** The packets the push loop sends: the entries at consecutive offsets,
      with consecutive packet ids from the session's counter. */
  lemma {:induction false} PushLoopPublishes(p: Providers, s: State, c: CursorId, next: int, k: nat)
    requires Live(s, c)
    ensures var (r, count) := PushLoop(p, s, c, next, k);
            r.published == s.published + Pushed(p, s.cursors[c], s.sessions[s.cursors[c].session].nextPacketId, next + k, count - k)
    decreases s.sessions[s.cursors[c].session].Room()
  {
    var cur := s.cursors[c];
    var sess := s.sessions[cur.session];
    if !sess.IsFull() && LogHas(p, cur.topic, next + k) {
      var m := p.persistenceGet(cur.topic, next + k).value;
      PushLoopStep(p, s, c, next, k);
      var s1 := SendOne(s, c, m, false);
      PushLoopPublishes(p, s1, c, next, k + 1);
    }
  }

  /** The in-flight queue entries the push loop adds: one per packet sent,
      in order, each with its packet id and its own log offset. */
  lemma {:induction false} PushLoopQueues(p: Providers, s: State, c: CursorId, next: int, k: nat)
    requires Live(s, c)
    ensures var (r, count) := PushLoop(p, s, c, next, k);
            var sess := s.sessions[s.cursors[c].session];
            r.sessions[s.cursors[c].session].inflight
              == sess.inflight + Queued(p, s.cursors[c], sess.nextPacketId, next + k, count - k)
    decreases s.sessions[s.cursors[c].session].Room()
  {
    var cur := s.cursors[c];
    var sess := s.sessions[cur.session];
    if !sess.IsFull() && LogHas(p, cur.topic, next + k) {
      var m := p.persistenceGet(cur.topic, next + k).value;
      PushLoopStep(p, s, c, next, k);
      var s1 := SendOne(s, c, m, false);
      PushLoopQueues(p, s1, c, next, k + 1);
    }
  }

  /** publish0 with the permit held, as every caller runs it: the permit is
      given back exactly when the loop sent nothing, and the retry through
      batchPublish then finds the permit taken and does nothing. */
  lemma Publish0WithPermitHeld(p: Providers, s: State, c: CursorId)
    requires Live(s, c) && !s.cursors[c].gateFree
    ensures var (s1, count) := PushLoop(p, s, c, s.cursors[c].nextConsumerOffset, 0);
            Publish0Spec(p, s, c) == if count == 0 then SetGate(s1, c, true) else s1
  {
  }

  /** BrokerContextImpl.batchPublish(topic) adds one batchPublish task for
      each cursor of the topic with a free permit, and nothing else. */
  lemma BatchPublishTopicSchedulesReady(s: State, t: string, task: Task)
    requires t in s.topics
    ensures var r := BatchPublishTopicSpec(s, t);
            r.tasks[task] == s.tasks[task] + (if task.BatchPublishTask? && task.cursor in ReadyCursors(s, t) then 1 else 0)
  {
    var cs := ReadyCursors(s, t);
    assert task in (set c | c in cs :: BatchPublishTask(c)) <==> task.BatchPublishTask? && task.cursor in cs;
  }

  /** The retained replay, when it does not skip, sends exactly one
      retained PUBLISH with the cursor's QoS and the next packet id, adds it
      to the in-flight queue at the stored offset (without a fullness check)
      and registers its callback. */
  lemma RetainReplaySendsOne(p: Providers, s: State, c: CursorId)
    requires Live(s, c)
    requires !RetainSkip(p.retainGet(s.cursors[c].topic, s.cursors[c].retainConsumerOffset), s.cursors[c])
    ensures var r := RetainTaskSpec(p, s, c);
            var cur := s.cursors[c];
            var m := p.retainGet(cur.topic, cur.retainConsumerOffset).value;
            var sess := s.sessions[cur.session];
            && cur.session in r.sessions
            && r.published == s.published + [Publish(cur.session, sess.nextPacketId, m.topic, cur.qos, m.payload, m.offset, true)]
            && r.sessions[cur.session].inflight == sess.inflight + [InflightEntry(sess.nextPacketId, m.offset)]
            && r.sessions[cur.session].nextPacketId == sess.nextPacketId + 1
            && r.sessions[cur.session].pending == sess.pending[sess.nextPacketId := RetainAck(c, |sess.inflight|)]
            && r.cursors == s.cursors && r.tasks == s.tasks && r.topics == s.topics
  {
  }

  /** The retained replay's acknowledgement moves `retainConsumerOffset`
      past the committed offset, clears the queue and re-runs the task. */
  lemma RetainAckReruns(p: Providers, s: State, sid: SessionId, packetId: int, offset: int, done: bool)
    requires sid in s.sessions && packetId in s.sessions[sid].pending
    requires s.sessions[sid].pending[packetId].RetainAck? && s.sessions[sid].pending[packetId].cursor in s.cursors
    ensures var c := s.sessions[sid].pending[packetId].cursor;
            var r := AckSpec(p, s, sid, packetId, Some(offset), done);
            && r.cursors == s.cursors[c := s.cursors[c].(retainConsumerOffset := offset + 1)]
            && r.sessions[sid].inflight == []
            && r.sessions[sid].pending == s.sessions[sid].pending - {packetId}
            && r.tasks == s.tasks + multiset{RetainTask(c)}
  {
  }

  /** The live push acknowledgement that completes a batch: the queue is
      cleared, the retain timestamp records the message's creation time, and
      either the permit is released (no entry at the new next offset) or
      publish0 is resubmitted. */
  lemma PushAckDone(p: Providers, s: State, sid: SessionId, packetId: int, advancedTo: Option<int>)
    requires sid in s.sessions && packetId in s.sessions[sid].pending
    requires s.sessions[sid].pending[packetId].PushAck? && s.sessions[sid].pending[packetId].cursor in s.cursors
    ensures var a := s.sessions[sid].pending[packetId];
            var c := a.cursor;
            var r := AckSpec(p, s, sid, packetId, advancedTo, true);
            var next := if advancedTo.Some? then advancedTo.value + 1 else s.cursors[c].nextConsumerOffset;
            var noNext := p.persistenceGet(s.cursors[c].topic, next).None?;
            && c in r.cursors
            && r.cursors[c].nextConsumerOffset == next
            && r.cursors[c].retainConsumerTimestamp == Some(a.createTime)
            && r.sessions[sid].inflight == []
            && (noNext ==> r.cursors[c].gateFree && r.tasks == s.tasks)
            && (!noNext ==> r.cursors[c].gateFree == s.cursors[c].gateFree && r.tasks == s.tasks + multiset{Publish0Task(c)})
  {
  }

  /** An acknowledgement for which no callback is registered changes
      nothing. */
  lemma AckWithoutCallback(p: Providers, s: State, sid: SessionId, packetId: int, advancedTo: Option<int>, done: bool)
    requires sid in s.sessions && packetId !in s.sessions[sid].pending
    ensures AckSpec(p, s, sid, packetId, advancedTo, done) == s
  {
  }

  // ---------------------------------------------------------------------
  // Session registry
  // ---------------------------------------------------------------------

  /** addSession never replaces a registered session. */
  lemma AddSessionKeeps(s: State, sid: SessionId, clientId: string)
    requires clientId in s.grantSessions
    ensures var r := AddSessionSpec(s, sid);
            clientId in r.grantSessions && r.grantSessions[clientId] == s.grantSessions[clientId]
  {
  }

  /** One listener of the TOPIC_CREATE delivery: an enabled listener whose
      filter matches subscribes its session, then the rest are notified. */
  lemma FireTopicCreateStep(p: Providers, s: State, name: string, ls: seq<Listener>, now: int)
    requires ls != []
    ensures var l := ls[0];
            FireTopicCreate(p, s, name, ls, now)
              == FireTopicCreate(p, if Enabled(s, l) && p.matches(name, l.filter)
                                    then Subscribe0TopicSpec(p, s, l.session, l.qos, l.filter, name, now).0
                                    else s, name, ls[1..], now)
  {
  }

  /** The push loop stops at once with a full queue or no entry at the
      next offset. */
  lemma PushLoopStops(p: Providers, s: State, c: CursorId, next: int, k: nat)
    requires Live(s, c)
    requires s.sessions[s.cursors[c].session].IsFull() || p.persistenceGet(s.cursors[c].topic, next + k).None?
    ensures PushLoop(p, s, c, next, k) == (s, k)
  {
  }
}

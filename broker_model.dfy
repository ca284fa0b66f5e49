/** The broker's subscription and delivery engine (MqttSession together with
    the topic and session registries of BrokerContextImpl), as functions on
    a value of the whole broker state. The class in module Broker performs
    the same steps in place and is proved against these functions.

    Java object identities become numbers: a SessionId names an MqttSession,
    a CursorId names a TopicSubscriber (the per-session, per-topic consume
    cursor). A BrokerTopic is identified by its name; its `consumeOffsets`
    map is `topics[name]`. */
module BrokerModel {

  import opened Wrappers
  import opened MqttTypes

  type SessionId = nat
  type CursorId = nat

  /** PersistenceMessage: an entry of a topic's message log or of the
      retained-message store. */
  datatype StoredMessage = StoredMessage(topic: string, offset: int, createTime: int, payload: seq<byte>)

  /** The collaborators whose code is not part of this model, as fixed
      functions: the message log (PersistenceProvider.get, getLatestOffset),
      the retained-message store (get, getOldestOffset), the topic/filter
      match (TopicTokenUtil.match, topic name first), TopicToken.isWildcards
      and MqttUtil.containsTopicWildcards. */
  datatype Providers = Providers(
    persistenceGet: (string, int) -> Option<StoredMessage>,
    latestOffset: string -> int,
    retainGet: (string, int) -> Option<StoredMessage>,
    retainOldestOffset: string -> int,
    matches: (string, string) -> bool,
    isWildcards: string -> bool,
    containsWildcards: string -> bool)

  /** TopicSubscriber: the consume position of one session on one topic.
      `gateFree` is the one-permit semaphore: true when the permit is
      available. */
  datatype Cursor = Cursor(
    topic: string,
    session: SessionId,
    qos: QoS,
    filter: string,
    nextConsumerOffset: int,
    retainConsumerOffset: int,
    retainConsumerTimestamp: Option<int>,
    latestSubscribeTime: int,
    gateFree: bool)

  /** TopicFilterSubscriber: one subscribed filter of a session and the
      cursor it holds for each topic name it covers. */
  datatype FilterSubscriber = FilterSubscriber(qos: QoS, topicSubscribers: map<string, CursorId>)

  /** An InflightQueue slot: the packet sent and the log offset it carries. */
  datatype InflightEntry = InflightEntry(packetId: int, offset: int)

  /** The callback registered with `session.publish` for one packet id: the
      live push continuation of publish0, or the retained replay's. */
  datatype AckConsumer =
    | PushAck(cursor: CursorId, index: nat, createTime: int)
    | RetainAck(cursor: CursorId, index: nat)

  /** The MqttSession fields the engine reads and writes. `nextPacketId` is
      the packet-id counter of the session, `pending` its callbacks by packet
      id, `inflight` and `maxInflight` its InflightQueue. */
  datatype Session = Session(
    clientId: string,
    authorized: bool,
    cleanSession: bool,
    disconnect: bool,
    maxInflight: nat,
    subscribers: map<string, FilterSubscriber>,
    inflight: seq<InflightEntry>,
    nextPacketId: int,
    pending: map<int, AckConsumer>)
  {
    /** InflightQueue.isFull */
    predicate IsFull() {
      |inflight| >= maxInflight
    }

    /** Free slots left in the in-flight queue. */
    function Room(): (n: nat)
      ensures n == 0 <==> IsFull()
    {
      if |inflight| < maxInflight then maxInflight - |inflight| else 0
    }
  }

  /** A TOPIC_CREATE listener registered by a wildcard subscribe. */
  datatype Listener = Listener(session: SessionId, filter: string, qos: QoS)

  /** Work handed to the push thread pool. */
  datatype Task =
    | BatchPublishTask(cursor: CursorId)   // session.batchPublish(cursor)
    | Publish0Task(cursor: CursorId)       // publish0 resubmitted after a batch completes
    | RetainTask(cursor: CursorId)         // the retained-message replay task

  /** A PUBLISH packet handed to `session.publish`. */
  datatype Publish = Publish(
    session: SessionId,
    packetId: int,
    topic: string,
    qos: QoS,
    payload: seq<byte>,
    offset: int,
    retained: bool)

  /** The whole broker: topic registry (with the TOPIC_CREATE event log),
      session registry, sessions, cursors, listeners, pending pool tasks,
      packets sent, and the client ids that have stored session state. */
  datatype State = State(
    topics: map<string, map<SessionId, CursorId>>,
    topicLog: seq<string>,
    grantSessions: map<string, SessionId>,
    sessions: map<SessionId, Session>,
    cursors: map<CursorId, Cursor>,
    nextCursor: nat,
    listeners: seq<Listener>,
    tasks: multiset<Task>,
    published: seq<Publish>,
    storedStates: set<string>)

  datatype BrokerError = UnknownSession | SessionClosed | UnknownTopic | InvalidTopicName

  function EmptyState(): State {
    State(map[], [], map[], map[], map[], 0, [], multiset{}, [], {})
  }

  /** The registries and logs a subscribe-side step leaves alone. */
  predicate Registries(a: State, b: State) {
    && a.topicLog == b.topicLog
    && a.topics.Keys == b.topics.Keys
    && a.listeners == b.listeners
    && a.grantSessions == b.grantSessions
    && a.sessions.Keys == b.sessions.Keys
    && a.storedStates == b.storedStates
    && a.published == b.published
  }

  // ---------------------------------------------------------------------
  // Helpers on the two subscription maps
  // ---------------------------------------------------------------------

  /** Some filter of the session holds a cursor for topic `t`. */
  predicate Holds(subs: map<string, FilterSubscriber>, t: string) {
    exists f | f in subs :: t in subs[f].topicSubscribers
  }

  /** The topic names held by the filters of `subs` that are in `fs`. */
  function HeldBy(subs: map<string, FilterSubscriber>, fs: set<string>): (ts: set<string>)
    ensures forall t :: t in ts <==> exists f | f in subs && f in fs :: t in subs[f].topicSubscribers
  {
    set f, t | f in subs && f in fs && t in subs[f].topicSubscribers :: t
  }

  /** Every filter drops its cursors for the topic names in `ts`. */
  function StripAll(subs: map<string, FilterSubscriber>, ts: set<string>): (r: map<string, FilterSubscriber>)
    ensures r.Keys == subs.Keys
    ensures forall f | f in r :: r[f].qos == subs[f].qos
    ensures forall f | f in r :: r[f].topicSubscribers == subs[f].topicSubscribers - ts
  {
    map f | f in subs :: subs[f].(topicSubscribers := subs[f].topicSubscribers - ts)
  }

  /** The topics named in `ts` drop session `sid` from their consumeOffsets. */
  function DropSession(topics: map<string, map<SessionId, CursorId>>, sid: SessionId, ts: set<string>)
    : (r: map<string, map<SessionId, CursorId>>)
    ensures r.Keys == topics.Keys
    ensures forall t | t in r :: r[t] == if t in ts then topics[t] - {sid} else topics[t]
  {
    map t | t in topics :: if t in ts then topics[t] - {sid} else topics[t]
  }

  function UpdateSession(s: State, sid: SessionId, sess: Session): State {
    s.(sessions := s.sessions[sid := sess])
  }

  /** The cursor exists and so does its session. */
  predicate Live(s: State, c: CursorId) {
    c in s.cursors && s.cursors[c].session in s.sessions
  }

  function SetGate(s: State, c: CursorId, free: bool): (r: State)
    requires c in s.cursors
  {
    s.(cursors := s.cursors[c := s.cursors[c].(gateFree := free)])
  }

  // ---------------------------------------------------------------------
  // Topic registry (BrokerContextImpl)
  // ---------------------------------------------------------------------

  /** The cursor `new TopicSubscriber(topic, this, qos, latestOffset + 1,
      retainOldestOffset)` with its subscribe time and a free permit. */
  function NewCursor(p: Providers, t: string, sid: SessionId, qos: QoS, filter: string, now: int): Cursor {
    Cursor(t, sid, qos, filter, p.latestOffset(t) + 1, p.retainOldestOffset(t), None, now, true)
  }

  /** A TOPIC_CREATE listener is enabled while its session is connected and
      its filter is still subscribed. */
  predicate Enabled(s: State, l: Listener) {
    l.session in s.sessions && !s.sessions[l.session].disconnect && l.filter in s.sessions[l.session].subscribers
  }

  /** Delivering TOPIC_CREATE for topic `name` to the listeners `ls` in
      order: an enabled listener whose filter matches attaches its session
      to the new topic. */
  function FireTopicCreate(p: Providers, s: State, name: string, ls: seq<Listener>, now: int): (r: State)
    ensures Registries(r, s)
    ensures forall t | t in s.topics && t != name :: r.topics[t] == s.topics[t]
    decreases |ls|
  {
    if ls == [] then s
    else
      var l := ls[0];
      var s1 := if Enabled(s, l) && p.matches(name, l.filter)
                then Subscribe0TopicSpec(p, s, l.session, l.qos, l.filter, name, now).0
                else s;
      FireTopicCreate(p, s1, name, ls[1..], now)
  }

  /** getOrCreateTopic: an existing topic is returned as is; a new name
      with wildcards is rejected; otherwise the topic is created, logged
      once as TOPIC_CREATE and the listeners are notified. */
  function GetOrCreateTopicSpec(p: Providers, s: State, name: string, now: int): (r: (State, Result<(), BrokerError>))
    ensures name in s.topics ==> r == (s, Success(()))
    ensures name !in s.topics && p.containsWildcards(name) ==> r == (s, Failure(InvalidTopicName))
    ensures name !in s.topics && !p.containsWildcards(name) ==>
              && r.1 == Success(())
              && r.0.topicLog == s.topicLog + [name]
              && r.0.topics.Keys == s.topics.Keys + {name}
    ensures r.1.Success? <==> name in r.0.topics
    ensures r.0.listeners == s.listeners && r.0.grantSessions == s.grantSessions
    ensures r.0.sessions.Keys == s.sessions.Keys && r.0.published == s.published
    ensures forall t | t in s.topics && t != name :: r.0.topics[t] == s.topics[t]
  {
    if name in s.topics then (s, Success(()))
    else if p.containsWildcards(name) then (s, Failure(InvalidTopicName))
    else
      var s1 := s.(topics := s.topics[name := map[]], topicLog := s.topicLog + [name]);
      (FireTopicCreate(p, s1, name, s1.listeners, now), Success(()))
  }

  // ---------------------------------------------------------------------
  // Subscribe and unsubscribe (MqttSession)
  // ---------------------------------------------------------------------

  /** unsubscribe0(topic): every filter of the session drops its cursor
      for `t`, and if one did, topic `t` drops the session. */
  function Unsubscribe0Spec(s: State, sid: SessionId, t: string): (r: State)
    requires sid in s.sessions
    ensures Registries(r, s) && r.cursors == s.cursors && r.tasks == s.tasks && r.nextCursor == s.nextCursor
    ensures forall u | u in s.topics && u != t :: r.topics[u] == s.topics[u]
    ensures !Holds(r.sessions[sid].subscribers, t)
    ensures r.sessions[sid].subscribers == StripAll(s.sessions[sid].subscribers, {t})
    ensures Holds(s.sessions[sid].subscribers, t) && t in s.topics ==> r.topics[t] == s.topics[t] - {sid}
    ensures !Holds(s.sessions[sid].subscribers, t) ==> r.topics == s.topics
    ensures forall sid' | sid' in s.sessions && sid' != sid :: r.sessions[sid'] == s.sessions[sid']
  {
    var sess := s.sessions[sid];
    var held := Holds(sess.subscribers, t);
    s.(sessions := s.sessions[sid := sess.(subscribers := StripAll(sess.subscribers, {t}))],
       topics := if held then DropSession(s.topics, sid, {t}) else s.topics)
  }

  /** subscribe0(qos, topicToken, topic): refused on a closed session before
      anything changes; otherwise the session's old cursor for the topic is
      detached, a new cursor is attached under `filter`, the topic maps the
      session to it, and SUBSCRIBE_TOPIC schedules the retained replay. */
  function Subscribe0TopicSpec(p: Providers, s: State, sid: SessionId, qos: QoS, filter: string, t: string, now: int)
    : (r: (State, Result<CursorId, BrokerError>))
    ensures Registries(r.0, s)
    ensures sid in s.sessions && s.sessions[sid].disconnect ==> r == (s, Failure(SessionClosed))
    ensures r.1.Failure? ==> r.0 == s
    ensures r.1.Success? <==> sid in s.sessions && !s.sessions[sid].disconnect && t in s.topics
    ensures forall u | u in s.topics && u != t :: r.0.topics[u] == s.topics[u]
    ensures forall sid' | sid' in s.sessions && sid' != sid :: r.0.sessions[sid'] == s.sessions[sid']
    ensures r.1.Success? ==>
              && r.1.value == s.nextCursor && r.0.nextCursor == s.nextCursor + 1
              && r.0.cursors == s.cursors[s.nextCursor := NewCursor(p, t, sid, qos, filter, now)]
              && r.0.tasks == s.tasks + multiset{RetainTask(s.nextCursor)}
              && r.0.topics[t] == s.topics[t][sid := s.nextCursor]
    ensures r.1.Success? ==>
              var subs := r.0.sessions[sid].subscribers;
              && filter in subs && t in subs[filter].topicSubscribers && subs[filter].topicSubscribers[t] == s.nextCursor
              && (forall g | g in subs && g != filter :: t !in subs[g].topicSubscribers)
  {
    if sid !in s.sessions then (s, Failure(UnknownSession))
    else if s.sessions[sid].disconnect then (s, Failure(SessionClosed))
    else if t !in s.topics then (s, Failure(UnknownTopic))
    else
      var u := Unsubscribe0Spec(s, sid, t);
      ReplaceAfterRemove(s.topics[t], sid, s.nextCursor);
      (Attach(p, u, sid, qos, filter, t, now), Success(s.nextCursor))
  }

  /** Re-mapping a key after removing it is re-mapping it directly. */
  lemma ReplaceAfterRemove<K, V>(m: map<K, V>, k: K, v: V)
    ensures (m - {k})[k := v] == m[k := v]
  {
  }

  /** The attaching half of subscribe0: a new cursor under `filter` (a new
      filter entry keeps the given QoS, an existing one keeps its own), the
      topic's map entry for the session, and the retained-replay task. */
  function Attach(p: Providers, s: State, sid: SessionId, qos: QoS, filter: string, t: string, now: int): (r: State)
    requires sid in s.sessions && t in s.topics
  {
    var c: CursorId := s.nextCursor;
    var sess := s.sessions[sid];
    var fs := if filter in sess.subscribers
              then sess.subscribers[filter].(topicSubscribers := sess.subscribers[filter].topicSubscribers[t := c])
              else FilterSubscriber(qos, map[t := c]);
    var co: map<SessionId, CursorId> := s.topics[t][sid := c];
    s.(sessions := s.sessions[sid := sess.(subscribers := sess.subscribers[filter := fs])],
       topics := s.topics[t := co],
       cursors := s.cursors[c := NewCursor(p, t, sid, qos, filter, now)],
       nextCursor := c + 1,
       tasks := s.tasks + multiset{RetainTask(c)})
  }

  /** The wildcard branch of subscribe0: every existing topic (in creation
      order) that the filter matches is attached; a refusal stops the walk. */
  function SubscribeMatching(p: Providers, s: State, sid: SessionId, qos: QoS, filter: string, names: seq<string>, now: int)
    : (r: (State, Result<(), BrokerError>))
    ensures Registries(r.0, s)
    ensures forall u | u in s.topics && (u !in names || !p.matches(u, filter)) :: r.0.topics[u] == s.topics[u]
    decreases |names|
  {
    if names == [] then (s, Success(()))
    else
      var t := names[0];
      if t in s.topics && p.matches(t, filter) then
        var (s1, r1) := Subscribe0TopicSpec(p, s, sid, qos, filter, t, now);
        if r1.Failure? then (s1, Failure(r1.error))
        else SubscribeMatching(p, s1, sid, qos, filter, names[1..], now)
      else SubscribeMatching(p, s, sid, qos, filter, names[1..], now)
  }

  /** subscribe0(topicFilter, qos, monitor): a literal filter attaches to
      getOrCreateTopic(filter); a wildcard filter attaches to every matching
      topic and, when `monitor` is set, registers a TOPIC_CREATE listener. */
  function Subscribe0FilterSpec(p: Providers, s: State, sid: SessionId, filter: string, qos: QoS, monitor: bool, now: int)
    : (r: (State, Result<(), BrokerError>))
    ensures r.0.grantSessions == s.grantSessions && r.0.sessions.Keys == s.sessions.Keys
    ensures r.0.published == s.published
    ensures !p.isWildcards(filter) ==> r.0.listeners == s.listeners
    ensures p.isWildcards(filter) ==>
              r.0.listeners == s.listeners + (if monitor && r.1.Success? then [Listener(sid, filter, qos)] else [])
  {
    if !p.isWildcards(filter) then
      var (s1, r1) := GetOrCreateTopicSpec(p, s, filter, now);
      if r1.Failure? then (s1, r1)
      else
        var (s2, r2) := Subscribe0TopicSpec(p, s1, sid, qos, filter, filter, now);
        (s2, if r2.Success? then Success(()) else Failure(r2.error))
    else
      var (s1, r1) := SubscribeMatching(p, s, sid, qos, filter, s.topicLog, now);
      if r1.Failure? then (s1, r1)
      else if monitor then (s1.(listeners := s1.listeners + [Listener(sid, filter, qos)]), Success(()))
      else (s1, Success(()))
  }

  /** subscribe(topicFilter, qos) */
  function SubscribeSpec(p: Providers, s: State, sid: SessionId, filter: string, qos: QoS, now: int)
    : (r: (State, Result<(), BrokerError>))
    ensures r == Subscribe0FilterSpec(p, s, sid, filter, qos, true, now)
  {
    Subscribe0FilterSpec(p, s, sid, filter, qos, true, now)
  }

  /** resubscribe: every subscribed filter, in the iteration order `order`,
      is subscribed again with its recorded QoS and without a new listener. */
  function ResubscribeSpec(p: Providers, s: State, sid: SessionId, order: seq<string>, now: int)
    : (r: (State, Result<(), BrokerError>))
    ensures r.0.listeners == s.listeners
    ensures r.0.grantSessions == s.grantSessions && r.0.sessions.Keys == s.sessions.Keys
    decreases |order|
  {
    if order == [] then (s, Success(()))
    else if sid in s.sessions && order[0] in s.sessions[sid].subscribers then
      var (s1, r1) := Subscribe0FilterSpec(p, s, sid, order[0], s.sessions[sid].subscribers[order[0]].qos, false, now);
      if r1.Failure? then (s1, r1)
      else ResubscribeSpec(p, s1, sid, order[1..], now)
    else ResubscribeSpec(p, s, sid, order[1..], now)
  }

  /** unsubscribe(topicFilter) as written: the filter entry is removed
      first, so the unsubscribe0 calls for its topics only consult the
      remaining filters, and a topic only drops the session when another
      filter also held it. */
  function UnsubscribeAsWrittenSpec(s: State, sid: SessionId, f: string): (r: State)
    requires sid in s.sessions && f in s.sessions[sid].subscribers
    ensures Registries(r, s) && r.cursors == s.cursors && r.tasks == s.tasks
    ensures r.sessions[sid] == s.sessions[sid].(subscribers := r.sessions[sid].subscribers)
    ensures r.sessions[sid].subscribers.Keys == s.sessions[sid].subscribers.Keys - {f}
    ensures forall x | x in s.sessions && x != sid :: r.sessions[x] == s.sessions[x]
  {
    var subs := s.sessions[sid].subscribers;
    var rest := subs - {f};
    var ts := subs[f].topicSubscribers.Keys;
    s.(topics := DropSession(s.topics, sid, ts * HeldBy(rest, rest.Keys)),
       sessions := s.sessions[sid := s.sessions[sid].(subscribers := StripAll(rest, ts))])
  }

  /** unsubscribe(topicFilter), corrected: every topic the filter holds drops
      the session, and then the filter entry is removed. */
  function UnsubscribeSpec(s: State, sid: SessionId, f: string): (r: State)
    requires sid in s.sessions && f in s.sessions[sid].subscribers
    ensures Registries(r, s) && r.cursors == s.cursors && r.tasks == s.tasks
    ensures r.sessions[sid].subscribers.Keys == s.sessions[sid].subscribers.Keys - {f}
    ensures forall t | t in s.sessions[sid].subscribers[f].topicSubscribers && t in s.topics :: sid !in r.topics[t]
    ensures forall t | t in s.topics && t !in s.sessions[sid].subscribers[f].topicSubscribers :: r.topics[t] == s.topics[t]
    ensures forall sid' | sid' in s.sessions && sid' != sid :: r.sessions[sid'] == s.sessions[sid']
  {
    var subs := s.sessions[sid].subscribers;
    var ts := subs[f].topicSubscribers.Keys;
    s.(topics := DropSession(s.topics, sid, ts),
       sessions := s.sessions[sid := s.sessions[sid].(subscribers := StripAll(subs - {f}, ts))])
  }

  /** The net effect of unsubscribing every filter of the session, in any
      order: each topic any filter held drops the session, and the session
      has no filters left. */
  function UnsubscribeAllSpec(s: State, sid: SessionId): (r: State)
    requires sid in s.sessions
    ensures Registries(r, s) && r.cursors == s.cursors && r.tasks == s.tasks
    ensures r.sessions[sid].subscribers == map[]
    ensures forall sid' | sid' in s.sessions && sid' != sid :: r.sessions[sid'] == s.sessions[sid']
  {
    var subs := s.sessions[sid].subscribers;
    s.(topics := DropSession(s.topics, sid, HeldBy(subs, subs.Keys)),
       sessions := s.sessions[sid := s.sessions[sid].(subscribers := map[])])
  }

  // ---------------------------------------------------------------------
  // Session registry (BrokerContextImpl)
  // ---------------------------------------------------------------------

  /** addSession: putIfAbsent under the session's client id. */
  function AddSessionSpec(s: State, sid: SessionId): (r: State)
    ensures sid in s.sessions && s.sessions[sid].clientId !in s.grantSessions ==>
              r == s.(grantSessions := s.grantSessions[s.sessions[sid].clientId := sid])
    ensures sid !in s.sessions || s.sessions[sid].clientId in s.grantSessions ==> r == s
  {
    if sid in s.sessions && s.sessions[sid].clientId !in s.grantSessions
    then s.(grantSessions := s.grantSessions[s.sessions[sid].clientId := sid])
    else s
  }

  /** removeSession: a blank client id is ignored; otherwise the mapping is
      removed and returned. */
  function RemoveSessionSpec(s: State, clientId: string): (r: (State, Option<SessionId>))
    ensures IsBlank(clientId) ==> r == (s, None)
    ensures !IsBlank(clientId) ==>
              && r.0 == s.(grantSessions := s.grantSessions - {clientId})
              && r.1 == GetSessionSpec(s, clientId)
  {
    if IsBlank(clientId) then (s, None)
    else (s.(grantSessions := s.grantSessions - {clientId}), GetSessionSpec(s, clientId))
  }

  /** getSession: a plain lookup. */
  function GetSessionSpec(s: State, clientId: string): (r: Option<SessionId>)
    ensures r.Some? <==> clientId in s.grantSessions
    ensures r.Some? ==> r.value == s.grantSessions[clientId]
  {
    if clientId in s.grantSessions then Some(s.grantSessions[clientId]) else None
  }

  /** disconnect: nothing on a session already disconnected. Otherwise an
      authorized clean session's stored state is dropped, every filter is
      unsubscribed, the registry entry under the client id is removed (a
      different session found there is disconnected as well) and the flag
      is set. */
  function DisconnectSpec(s: State, sid: SessionId): (r: State)
    requires sid in s.sessions
    ensures r.sessions.Keys == s.sessions.Keys
    ensures r.sessions[sid].disconnect
    ensures s.sessions[sid].disconnect ==> r == s
    decreases s.grantSessions.Keys
  {
    if s.sessions[sid].disconnect then s
    else
      var (s3, removed) := DisconnectPrefix(s, sid);
      var s4 := if removed.Some? && removed.value != sid && removed.value in s3.sessions
                then DisconnectSpec(s3, removed.value) else s3;
      s4.(sessions := s4.sessions[sid := s4.sessions[sid].(disconnect := true)])
  }

  /** The steps of disconnect before the registry's other session is
      dealt with: the stored state, the filters and the registry entry. */
  function DisconnectPrefix(s: State, sid: SessionId): (r: (State, Option<SessionId>))
    requires sid in s.sessions
    ensures var sess := s.sessions[sid];
            && r.0.sessions.Keys == s.sessions.Keys
            && r.0.sessions[sid] == sess.(subscribers := map[])
            && (forall x | x in s.sessions && x != sid :: r.0.sessions[x] == s.sessions[x])
            && r.0.storedStates <= s.storedStates
            && (sess.authorized && sess.cleanSession ==> sess.clientId !in r.0.storedStates)
            && r.0.grantSessions.Keys <= s.grantSessions.Keys
            && (r.1.Some? ==> r.0.grantSessions.Keys < s.grantSessions.Keys)
            && (!IsBlank(sess.clientId) ==> sess.clientId !in r.0.grantSessions)
  {
    var sess := s.sessions[sid];
    var s1 := if sess.authorized && sess.cleanSession
              then s.(storedStates := s.storedStates - {sess.clientId}) else s;
    var s2 := UnsubscribeAllSpec(s1, sid);
    RemoveSessionSpec(s2, sess.clientId)
  }

  /** disconnect's subscribers.keySet().forEach(this::unsubscribe) as
      written: each filter in turn goes through the unsubscribe as written.
      The map's iteration order is not modelled: the next filter is any one
      still present. */
  ghost function UnsubscribeAllAsWrittenSpec(s: State, sid: SessionId): (r: State)
    requires sid in s.sessions
    ensures r.sessions.Keys == s.sessions.Keys && r.grantSessions == s.grantSessions
    ensures r.sessions[sid].subscribers == map[]
    decreases |s.sessions[sid].subscribers.Keys|
  {
    var subs := s.sessions[sid].subscribers;
    if subs.Keys == {} then
      assert subs == map[];
      s
    else
      var f :| f in subs;
      UnsubscribeAllAsWrittenSpec(UnsubscribeAsWrittenSpec(s, sid, f), sid)
  }

  /** The steps of disconnect before the other session, as written. */
  ghost function DisconnectPrefixAsWritten(s: State, sid: SessionId): (r: (State, Option<SessionId>))
    requires sid in s.sessions
    ensures r.0.sessions.Keys == s.sessions.Keys
    ensures r.0.grantSessions.Keys <= s.grantSessions.Keys
    ensures r.1.Some? ==> r.0.grantSessions.Keys < s.grantSessions.Keys
  {
    var sess := s.sessions[sid];
    var s1 := if sess.authorized && sess.cleanSession
              then s.(storedStates := s.storedStates - {sess.clientId}) else s;
    var s2 := UnsubscribeAllAsWrittenSpec(s1, sid);
    RemoveSessionSpec(s2, sess.clientId)
  }

  /** disconnect as written: DisconnectSpec with the filters unsubscribed
      by the unsubscribe as written. */
  ghost function DisconnectAsWrittenSpec(s: State, sid: SessionId): (r: State)
    requires sid in s.sessions
    ensures r.sessions.Keys == s.sessions.Keys
    ensures r.sessions[sid].disconnect
    ensures s.sessions[sid].disconnect ==> r == s
    decreases s.grantSessions.Keys
  {
    if s.sessions[sid].disconnect then s
    else
      var (s3, removed) := DisconnectPrefixAsWritten(s, sid);
      var s4 := if removed.Some? && removed.value != sid && removed.value in s3.sessions
                then DisconnectAsWrittenSpec(s3, removed.value) else s3;
      s4.(sessions := s4.sessions[sid := s4.sessions[sid].(disconnect := true)])
  }

  // ---------------------------------------------------------------------
  // Delivery (MqttSession.batchPublish / publish0 and the retained replay)
  // ---------------------------------------------------------------------

  function Room(s: State, c: CursorId): nat {
    if Live(s, c) then s.sessions[s.cursors[c].session].Room() else 0
  }

  /** The `while` loop of publish0 from offset `next`, having sent `count`
      entries: while the in-flight queue has room and the log has an entry
      at `next + count`, that entry is published with a fresh packet id,
      added to the queue and given its acknowledgement callback. */
  function PushLoop(p: Providers, s: State, c: CursorId, next: int, count: nat): (r: (State, nat))
    requires Live(s, c)
    ensures r.1 >= count
    ensures r.0.cursors == s.cursors && r.0.sessions.Keys == s.sessions.Keys
    ensures r.0.topics == s.topics && r.0.tasks == s.tasks && r.0.grantSessions == s.grantSessions
    ensures var sid := s.cursors[c].session;
            && r.0.sessions[sid].maxInflight == s.sessions[sid].maxInflight
            && |r.0.sessions[sid].inflight| == |s.sessions[sid].inflight| + (r.1 - count)
            && r.0.sessions[sid].nextPacketId == s.sessions[sid].nextPacketId + (r.1 - count)
            && (r.0.sessions[sid].IsFull() || p.persistenceGet(s.cursors[c].topic, next + r.1).None?)
    ensures r.1 == count ==> r.0 == s
    ensures r.1 == count ==>
              s.sessions[s.cursors[c].session].IsFull() || p.persistenceGet(s.cursors[c].topic, next + count).None?
    ensures r.1 > count ==> !s.sessions[s.cursors[c].session].IsFull()
    decreases s.sessions[s.cursors[c].session].Room()
  {
    var cur := s.cursors[c];
    if s.sessions[cur.session].IsFull() then (s, count)
    else
      match p.persistenceGet(cur.topic, next + count)
      case None => (s, count)
      case Some(m) => PushLoop(p, SendOne(s, c, m, false), c, next, count + 1)
  }

  /** One PUBLISH of stored message `m` for cursor `c` (shared by publish0
      and the retained replay): a fresh packet id from the session, the
      in-flight queue entry at the message's offset, the callback under
      the packet id, and the packet itself. */
  function SendOne(s: State, c: CursorId, m: StoredMessage, retained: bool): (r: State)
    requires Live(s, c)
    ensures r.cursors == s.cursors && r.topics == s.topics && r.tasks == s.tasks
    ensures r.grantSessions == s.grantSessions && r.sessions.Keys == s.sessions.Keys
    ensures forall x | x in s.sessions && x != s.cursors[c].session :: r.sessions[x] == s.sessions[x]
  {
    var cur := s.cursors[c];
    var sess := s.sessions[cur.session];
    var pid := sess.nextPacketId;
    var index := |sess.inflight|;
    var consumer := if retained then RetainAck(c, index) else PushAck(c, index, m.createTime);
    s.(sessions := s.sessions[cur.session := sess.(nextPacketId := pid + 1,
                                                   inflight := sess.inflight + [InflightEntry(pid, m.offset)],
                                                   pending := sess.pending[pid := consumer])],
       published := s.published + [Publish(cur.session, pid, m.topic, cur.qos, m.payload, m.offset, retained)])
  }

  /** batchPublish(cursor): runs publish0 only if the permit is acquired. */
  function BatchPublishSpec(p: Providers, s: State, c: CursorId): (r: State)
    ensures !Live(s, c) || !s.cursors[c].gateFree ==> r == s
    decreases Room(s, c), 1
  {
    if !Live(s, c) || !s.cursors[c].gateFree then s
    else Publish0Spec(p, SetGate(s, c, false), c)
  }

  /** publish0(cursor): the push loop from the cursor's next offset; the
      permit is released when nothing was sent; then, if the queue has room
      and the log has an entry at the start offset, batchPublish is retried. */
  function Publish0Spec(p: Providers, s: State, c: CursorId): (r: State)
    decreases Room(s, c), 0
  {
    if !Live(s, c) then s
    else
      var cur := s.cursors[c];
      var (s1, count) := PushLoop(p, s, c, cur.nextConsumerOffset, 0);
      var s2 := if count == 0 then SetGate(s1, c, true) else s1;
      if !s2.sessions[cur.session].IsFull() && p.persistenceGet(cur.topic, cur.nextConsumerOffset).Some?
      then BatchPublishSpec(p, s2, c)
      else s2
  }

  /** The retained replay skips to batchPublish when there is no retained
      message at the cursor's retain offset or it is newer than the
      subscription. */
  predicate RetainSkip(stored: Option<StoredMessage>, cur: Cursor) {
    stored.None? || stored.value.createTime > cur.latestSubscribeTime
  }

  /** The SUBSCRIBE_TOPIC retained-replay task. */
  function RetainTaskSpec(p: Providers, s: State, c: CursorId): (r: State)
    ensures Live(s, c) && RetainSkip(p.retainGet(s.cursors[c].topic, s.cursors[c].retainConsumerOffset), s.cursors[c]) ==>
              r == BatchPublishSpec(p, s, c)
  {
    if !Live(s, c) then s
    else
      var cur := s.cursors[c];
      var stored := p.retainGet(cur.topic, cur.retainConsumerOffset);
      if RetainSkip(stored, cur) then BatchPublishSpec(p, s, c)
      else SendOne(s, c, stored.value, true)
  }

  /** The three kinds of pool task. */
  function RunTaskSpec(p: Providers, s: State, t: Task): (r: State)
    requires t in s.tasks
  {
    var s1 := s.(tasks := s.tasks - multiset{t});
    match t
    case BatchPublishTask(c) => BatchPublishSpec(p, s1, c)
    case Publish0Task(c) => Publish0Spec(p, s1, c)
    case RetainTask(c) => RetainTaskSpec(p, s1, c)
  }

  /** The cursors of topic `t` whose permit is free. */
  function ReadyCursors(s: State, t: string): (cs: set<CursorId>)
    requires t in s.topics
    ensures forall c :: c in cs <==>
              c in s.cursors && s.cursors[c].gateFree && exists sid | sid in s.topics[t] :: s.topics[t][sid] == c
  {
    set sid | sid in s.topics[t] && s.topics[t][sid] in s.cursors && s.cursors[s.topics[t][sid]].gateFree
      :: s.topics[t][sid]
  }

  function BatchTasks(cs: set<CursorId>): multiset<Task> {
    multiset(set c | c in cs :: BatchPublishTask(c))
  }

  /** BrokerContextImpl.batchPublish(topic): a batchPublish task for each
      cursor of the topic whose permit is free. */
  function BatchPublishTopicSpec(s: State, t: string): (r: State)
  {
    if t in s.topics then s.(tasks := s.tasks + BatchTasks(ReadyCursors(s, t))) else s
  }

  /** The live push callback: the commit may move `nextConsumerOffset` past
      the committed offset; when the batch is done the queue is cleared and
      either the permit is released (no entry at the new offset) or publish0
      is resubmitted. */
  function PushAckSpec(p: Providers, s: State, sid: SessionId, c: CursorId, createTime: int,
                       advancedTo: Option<int>, done: bool): (r: State)
    requires sid in s.sessions && c in s.cursors
  {
    var cur := s.cursors[c];
    var cur1 := if advancedTo.Some? then cur.(nextConsumerOffset := advancedTo.value + 1) else cur;
    if !done then s.(cursors := s.cursors[c := cur1])
    else
      var cur2 := cur1.(retainConsumerTimestamp := Some(createTime));
      var noNext := p.persistenceGet(cur2.topic, cur2.nextConsumerOffset).None?;
      s.(cursors := s.cursors[c := cur2.(gateFree := cur2.gateFree || noNext)],
         sessions := s.sessions[sid := s.sessions[sid].(inflight := [])],
         tasks := if noNext then s.tasks else s.tasks + multiset{Publish0Task(c)})
  }

  /** The retained replay's callback: the commit may move
      `retainConsumerOffset`; the queue is cleared and the task re-runs. */
  function RetainAckSpec(s: State, sid: SessionId, c: CursorId, advancedTo: Option<int>): (r: State)
    requires sid in s.sessions && c in s.cursors
  {
    var cur := s.cursors[c];
    var cur1 := if advancedTo.Some? then cur.(retainConsumerOffset := advancedTo.value + 1) else cur;
    s.(cursors := s.cursors[c := cur1],
       sessions := s.sessions[sid := s.sessions[sid].(inflight := [])],
       tasks := s.tasks + multiset{RetainTask(c)})
  }

  /** An acknowledgement of `packetId` reaching session `sid`: the callback
      registered for it is taken out and run with the InflightQueue.commit
      outcome (`advancedTo`: the offset handed to the commit consumer, if
      any; `done`: the value commit returned). */
  function AckSpec(p: Providers, s: State, sid: SessionId, packetId: int, advancedTo: Option<int>, done: bool): (r: State)
  {
    if sid !in s.sessions || packetId !in s.sessions[sid].pending then s
    else
      var sess := s.sessions[sid];
      var consumer := sess.pending[packetId];
      var s1 := s.(sessions := s.sessions[sid := sess.(pending := sess.pending - {packetId})]);
      if consumer.cursor !in s1.cursors then s1
      else
        match consumer
        case PushAck(c, _, createTime) => PushAckSpec(p, s1, sid, c, createTime, advancedTo, done)
        case RetainAck(c, _) => RetainAckSpec(s1, sid, c, advancedTo)
  }
}

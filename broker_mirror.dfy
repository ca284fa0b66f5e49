/** The two views of a subscription kept in step: a session's filters each
    hold a cursor per covered topic (TopicFilterSubscriber.topicSubscribers),
    and each topic maps the sessions attached to it to their cursors
    (BrokerTopic.consumeOffsets). Subscribe and unsubscribe keep the views
    in step; the unsubscribe as written does not. */
module BrokerMirror {

  import opened Wrappers
  import opened MqttTypes
  import opened BrokerModel

  /** Each topic name is held by at most one filter of the session. */
  ghost predicate OneFilterPerTopic(subs: map<string, FilterSubscriber>) {
    forall f, g, t | f in subs && g in subs && t in subs[f].topicSubscribers && t in subs[g].topicSubscribers :: f == g
  }

  /** Every cursor a filter of session `x` holds is the one its topic maps
      `x` to. */
  ghost predicate Attached(s: State, x: SessionId)
    requires x in s.sessions
  {
    var subs := s.sessions[x].subscribers;
    forall f, t | f in subs && t in subs[f].topicSubscribers ::
      t in s.topics && x in s.topics[t] && s.topics[t][x] == subs[f].topicSubscribers[t]
  }

  /** A topic maps session `x` to a cursor only while a filter of `x`
      holds that topic. */
  ghost predicate NoStray(s: State, x: SessionId)
    requires x in s.sessions
  {
    forall t | t in s.topics && x in s.topics[t] :: Holds(s.sessions[x].subscribers, t)
  }

  ghost predicate SessionMirror(s: State, x: SessionId) {
    && x in s.sessions
    && Attached(s, x)
    && NoStray(s, x)
    && OneFilterPerTopic(s.sessions[x].subscribers)
  }

  lemma HoldsWitness(subs: map<string, FilterSubscriber>, f: string, t: string)
    requires f in subs && t in subs[f].topicSubscribers
    ensures Holds(subs, t)
  {
  }

  /** unsubscribe0 keeps the unsubscribing session's views in step, and the
      topic no longer maps it. */
  lemma Unsubscribe0KeepsOwnMirror(s: State, sid: SessionId, t: string)
    requires SessionMirror(s, sid)
    ensures SessionMirror(Unsubscribe0Spec(s, sid, t), sid)
    ensures t in s.topics ==> sid !in Unsubscribe0Spec(s, sid, t).topics[t]
  {
    Unsubscribe0OwnAttached(s, sid, t);
    Unsubscribe0OwnNoStray(s, sid, t);
    OneFilterStrip(s.sessions[sid].subscribers, {t});
  }

  lemma Unsubscribe0OwnAttached(s: State, sid: SessionId, t: string)
    requires SessionMirror(s, sid)
    ensures Attached(Unsubscribe0Spec(s, sid, t), sid)
  {
    var r := Unsubscribe0Spec(s, sid, t);
    var subs := s.sessions[sid].subscribers;
    var subs' := r.sessions[sid].subscribers;
    forall f, u | f in subs' && u in subs'[f].topicSubscribers
      ensures u in r.topics && sid in r.topics[u] && r.topics[u][sid] == subs'[f].topicSubscribers[u]
    {
      Unsubscribe0OwnAttachedAt(s, sid, t, f, u);
    }
  }

  lemma Unsubscribe0OwnAttachedAt(s: State, sid: SessionId, t: string, f: string, u: string)
    requires SessionMirror(s, sid)
    requires var subs' := Unsubscribe0Spec(s, sid, t).sessions[sid].subscribers;
             f in subs' && u in subs'[f].topicSubscribers
    ensures var r := Unsubscribe0Spec(s, sid, t);
            u in r.topics && sid in r.topics[u] && r.topics[u][sid] == r.sessions[sid].subscribers[f].topicSubscribers[u]
  {
    var subs := s.sessions[sid].subscribers;
    var r := Unsubscribe0Spec(s, sid, t);
    assert r.sessions[sid].subscribers[f].topicSubscribers == subs[f].topicSubscribers - {t};
    assert u != t && u in subs[f].topicSubscribers;
    assert u in s.topics && sid in s.topics[u] && s.topics[u][sid] == subs[f].topicSubscribers[u];
    assert r.topics[u] == s.topics[u];
  }

  lemma Unsubscribe0OwnNoStray(s: State, sid: SessionId, t: string)
    requires SessionMirror(s, sid)
    ensures NoStray(Unsubscribe0Spec(s, sid, t), sid)
    ensures t in s.topics ==> sid !in Unsubscribe0Spec(s, sid, t).topics[t]
  {
    var r := Unsubscribe0Spec(s, sid, t);
    var subs := s.sessions[sid].subscribers;
    var subs' := r.sessions[sid].subscribers;
    forall u | u in r.topics && sid in r.topics[u]
      ensures Holds(subs', u)
    {
      assert u != t;
      var g :| g in subs && u in subs[g].topicSubscribers;
      HoldsWitness(subs', g, u);
    }
  }

  /** Dropping topic names from every filter keeps filters disjoint. */
  lemma OneFilterStrip(subs: map<string, FilterSubscriber>, ts: set<string>)
    requires OneFilterPerTopic(subs)
    ensures OneFilterPerTopic(StripAll(subs, ts))
  {
  }

  /** unsubscribe0 by `sid` leaves another session's views in step. */
  lemma Unsubscribe0KeepsOtherMirror(s: State, sid: SessionId, t: string, x: SessionId)
    requires sid in s.sessions && x != sid && SessionMirror(s, x)
    ensures SessionMirror(Unsubscribe0Spec(s, sid, t), x)
  {
    var r := Unsubscribe0Spec(s, sid, t);
    assert r.sessions[x].subscribers == s.sessions[x].subscribers;
    forall u | u in s.topics
      ensures x in r.topics[u] <==> x in s.topics[u]
      ensures x in r.topics[u] ==> r.topics[u][x] == s.topics[u][x]
    {
      Unsubscribe0OtherAt(s, sid, t, x, u);
    }
  }

  lemma Unsubscribe0OtherAt(s: State, sid: SessionId, t: string, x: SessionId, u: string)
    requires sid in s.sessions && x != sid && u in s.topics
    ensures var r := Unsubscribe0Spec(s, sid, t);
            && u in r.topics
            && (x in r.topics[u] <==> x in s.topics[u])
            && (x in r.topics[u] ==> r.topics[u][x] == s.topics[u][x])
  {
    var r := Unsubscribe0Spec(s, sid, t);
    if u != t || !Holds(s.sessions[sid].subscribers, t) {
      assert r.topics[u] == s.topics[u];
    } else {
      assert r.topics[u] == s.topics[u] - {sid};
    }
  }

  /** unsubscribe0 keeps every session's two views in step. */
  lemma Unsubscribe0KeepsMirror(s: State, sid: SessionId, t: string, x: SessionId)
    requires sid in s.sessions && SessionMirror(s, x)
    ensures SessionMirror(Unsubscribe0Spec(s, sid, t), x)
    ensures x == sid && t in s.topics ==> sid !in Unsubscribe0Spec(s, sid, t).topics[t]
  {
    if x == sid {
      Unsubscribe0KeepsOwnMirror(s, sid, t);
    } else {
      Unsubscribe0KeepsOtherMirror(s, sid, t, x);
    }
  }

  /** Attaching a cursor for `t` to a session that holds none keeps its
      cursors attached. */
  lemma AttachKeepsAttached(p: Providers, s: State, sid: SessionId, qos: QoS, filter: string, t: string, now: int)
    requires sid in s.sessions && t in s.topics && Attached(s, sid) && !Holds(s.sessions[sid].subscribers, t)
    ensures Attached(Attach(p, s, sid, qos, filter, t, now), sid)
  {
    var r := Attach(p, s, sid, qos, filter, t, now);
    var subs := s.sessions[sid].subscribers;
    var subs' := r.sessions[sid].subscribers;
    forall g, u | g in subs' && u in subs'[g].topicSubscribers
      ensures u in r.topics && sid in r.topics[u] && r.topics[u][sid] == subs'[g].topicSubscribers[u]
    {
      if u != t {
        assert g in subs && u in subs[g].topicSubscribers && subs[g].topicSubscribers[u] == subs'[g].topicSubscribers[u];
      }
    }
  }

  /** ... and attaches the session to `t` only through `filter`. */
  lemma AttachKeepsNoStray(p: Providers, s: State, sid: SessionId, qos: QoS, filter: string, t: string, now: int)
    requires sid in s.sessions && t in s.topics && NoStray(s, sid)
    ensures NoStray(Attach(p, s, sid, qos, filter, t, now), sid)
  {
    var r := Attach(p, s, sid, qos, filter, t, now);
    var subs := s.sessions[sid].subscribers;
    var subs' := r.sessions[sid].subscribers;
    forall u | u in r.topics && sid in r.topics[u]
      ensures Holds(subs', u)
    {
      if u == t {
        HoldsWitness(subs', filter, t);
      } else {
        var g :| g in subs && u in subs[g].topicSubscribers;
        HoldsWitness(subs', g, u);
      }
    }
  }

  lemma AttachKeepsOneFilter(p: Providers, s: State, sid: SessionId, qos: QoS, filter: string, t: string, now: int)
    requires sid in s.sessions && t in s.topics && OneFilterPerTopic(s.sessions[sid].subscribers)
    requires !Holds(s.sessions[sid].subscribers, t)
    ensures OneFilterPerTopic(Attach(p, s, sid, qos, filter, t, now).sessions[sid].subscribers)
  {
    var r := Attach(p, s, sid, qos, filter, t, now);
    var subs := s.sessions[sid].subscribers;
    var subs' := r.sessions[sid].subscribers;
    forall f, g, u | f in subs' && g in subs' && u in subs'[f].topicSubscribers && u in subs'[g].topicSubscribers
      ensures f == g
    {
      if u != t {
        assert f in subs && u in subs[f].topicSubscribers;
        assert g in subs && u in subs[g].topicSubscribers;
      } else {
        if f != filter {
          HoldsWitness(subs, f, t);
        }
        if g != filter {
          HoldsWitness(subs, g, t);
        }
      }
    }
  }

  /** Attaching a cursor of `sid` leaves the views of other sessions alone. */
  lemma AttachKeepsOthers(p: Providers, s: State, sid: SessionId, qos: QoS, filter: string, t: string, now: int,
                          x: SessionId)
    requires sid in s.sessions && t in s.topics && x != sid && SessionMirror(s, x)
    ensures SessionMirror(Attach(p, s, sid, qos, filter, t, now), x)
  {
    var r := Attach(p, s, sid, qos, filter, t, now);
    assert r.sessions[x] == s.sessions[x];
    forall u | u in s.topics
      ensures x in r.topics[u] <==> x in s.topics[u]
      ensures x in r.topics[u] ==> r.topics[u][x] == s.topics[u][x]
    {
    }
  }

  /** subscribe0(qos, token, topic) keeps every session's two views in step. */
  lemma Subscribe0TopicKeepsMirror(p: Providers, s: State, sid: SessionId, qos: QoS, filter: string, t: string,
                                   now: int, x: SessionId)
    requires SessionMirror(s, x)
    ensures SessionMirror(Subscribe0TopicSpec(p, s, sid, qos, filter, t, now).0, x)
  {
    var (r, res) := Subscribe0TopicSpec(p, s, sid, qos, filter, t, now);
    if res.Success? {
      var s1 := Unsubscribe0Spec(s, sid, t);
      Unsubscribe0KeepsMirror(s, sid, t, x);
      assert r == Attach(p, s1, sid, qos, filter, t, now);
      if x == sid {
        AttachKeepsAttached(p, s1, sid, qos, filter, t, now);
        AttachKeepsNoStray(p, s1, sid, qos, filter, t, now);
        AttachKeepsOneFilter(p, s1, sid, qos, filter, t, now);
      } else {
        AttachKeepsOthers(p, s1, sid, qos, filter, t, now, x);
      }
    }
  }

  /** The corrected unsubscribe keeps every session's two views in step. */
  lemma UnsubscribeKeepsMirror(s: State, sid: SessionId, f: string, x: SessionId)
    requires sid in s.sessions && f in s.sessions[sid].subscribers && SessionMirror(s, x)
    ensures SessionMirror(UnsubscribeSpec(s, sid, f), x)
  {
    if x == sid {
      UnsubscribeOwnAttached(s, sid, f);
      UnsubscribeOwnNoStray(s, sid, f);
      UnsubscribeOwnOneFilter(s, sid, f);
    } else {
      UnsubscribeKeepsOtherMirror(s, sid, f, x);
    }
  }

  lemma UnsubscribeOwnAttached(s: State, sid: SessionId, f: string)
    requires SessionMirror(s, sid) && f in s.sessions[sid].subscribers
    ensures Attached(UnsubscribeSpec(s, sid, f), sid)
  {
    var r := UnsubscribeSpec(s, sid, f);
    var subs := s.sessions[sid].subscribers;
    var subs' := r.sessions[sid].subscribers;
    var ts := subs[f].topicSubscribers.Keys;
    forall g, u | g in subs' && u in subs'[g].topicSubscribers
      ensures u in r.topics && sid in r.topics[u] && r.topics[u][sid] == subs'[g].topicSubscribers[u]
    {
      UnsubscribeOwnAttachedAt(s, sid, f, g, u);
    }
  }

  lemma UnsubscribeOwnAttachedAt(s: State, sid: SessionId, f: string, g: string, u: string)
    requires SessionMirror(s, sid) && f in s.sessions[sid].subscribers
    requires var subs' := UnsubscribeSpec(s, sid, f).sessions[sid].subscribers;
             g in subs' && u in subs'[g].topicSubscribers
    ensures var r := UnsubscribeSpec(s, sid, f);
            u in r.topics && sid in r.topics[u] && r.topics[u][sid] == r.sessions[sid].subscribers[g].topicSubscribers[u]
  {
    var subs := s.sessions[sid].subscribers;
    var ts := subs[f].topicSubscribers.Keys;
    var r := UnsubscribeSpec(s, sid, f);
    assert r.sessions[sid].subscribers == StripAll(subs - {f}, ts);
    assert r.sessions[sid].subscribers[g].topicSubscribers == subs[g].topicSubscribers - ts;
    assert u !in ts && u in subs[g].topicSubscribers;
    assert u in s.topics && sid in s.topics[u] && s.topics[u][sid] == subs[g].topicSubscribers[u];
    assert r.topics[u] == s.topics[u];
  }

  lemma UnsubscribeOwnNoStray(s: State, sid: SessionId, f: string)
    requires SessionMirror(s, sid) && f in s.sessions[sid].subscribers
    ensures NoStray(UnsubscribeSpec(s, sid, f), sid)
  {
    var r := UnsubscribeSpec(s, sid, f);
    var subs := s.sessions[sid].subscribers;
    var subs' := r.sessions[sid].subscribers;
    var ts := subs[f].topicSubscribers.Keys;
    forall u | u in r.topics && sid in r.topics[u]
      ensures Holds(subs', u)
    {
      assert u !in ts;
      var g :| g in subs && u in subs[g].topicSubscribers;
      assert g != f;
      HoldsWitness(subs', g, u);
    }
  }

  lemma UnsubscribeOwnOneFilter(s: State, sid: SessionId, f: string)
    requires SessionMirror(s, sid) && f in s.sessions[sid].subscribers
    ensures OneFilterPerTopic(UnsubscribeSpec(s, sid, f).sessions[sid].subscribers)
  {
    var subs := s.sessions[sid].subscribers;
    var subs' := UnsubscribeSpec(s, sid, f).sessions[sid].subscribers;
    forall g, h, u | g in subs' && h in subs' && u in subs'[g].topicSubscribers && u in subs'[h].topicSubscribers
      ensures g == h
    {
      assert u in subs[g].topicSubscribers && u in subs[h].topicSubscribers;
    }
  }

  lemma UnsubscribeKeepsOtherMirror(s: State, sid: SessionId, f: string, x: SessionId)
    requires sid in s.sessions && f in s.sessions[sid].subscribers && x != sid && SessionMirror(s, x)
    ensures SessionMirror(UnsubscribeSpec(s, sid, f), x)
  {
    var r := UnsubscribeSpec(s, sid, f);
    assert r.sessions[x].subscribers == s.sessions[x].subscribers;
    forall u | u in s.topics
      ensures x in r.topics[u] <==> x in s.topics[u]
      ensures x in r.topics[u] ==> r.topics[u][x] == s.topics[u][x]
    {
    }
  }

  /** unsubscribe as written leaves a stray cursor: when the two views are
      in step and filter `f` holds topic `t`, the topic still maps the
      session to its cursor afterwards although no filter of the session
      holds `t` any more, so the session keeps receiving `t`'s messages. */
  lemma UnsubscribeAsWrittenLeavesStray(s: State, sid: SessionId, f: string, t: string)
    requires SessionMirror(s, sid)
    requires f in s.sessions[sid].subscribers && t in s.sessions[sid].subscribers[f].topicSubscribers
    ensures var r := UnsubscribeAsWrittenSpec(s, sid, f);
            && t in r.topics && sid in r.topics[t]
            && r.topics[t][sid] == s.sessions[sid].subscribers[f].topicSubscribers[t]
            && !Holds(r.sessions[sid].subscribers, t)
            && !NoStray(r, sid)
  {
    var subs := s.sessions[sid].subscribers;
    var rest := subs - {f};
    var r := UnsubscribeAsWrittenSpec(s, sid, f);
    assert r.topics[t] == s.topics[t];
    assert !Holds(r.sessions[sid].subscribers, t);
  }

  /** The corrected unsubscribe, from the same state, detaches the session
      from every topic the filter held. */
  lemma UnsubscribeDetaches(s: State, sid: SessionId, f: string, t: string)
    requires SessionMirror(s, sid)
    requires f in s.sessions[sid].subscribers && t in s.sessions[sid].subscribers[f].topicSubscribers
    ensures var r := UnsubscribeSpec(s, sid, f);
            t in r.topics && sid !in r.topics[t] && !Holds(r.sessions[sid].subscribers, t)
  {
  }

  /** Unsubscribing every filter, with the views in step, detaches the
      session from every topic. */
  lemma UnsubscribeAllDetaches(s: State, sid: SessionId)
    requires SessionMirror(s, sid)
    ensures forall t | t in UnsubscribeAllSpec(s, sid).topics :: sid !in UnsubscribeAllSpec(s, sid).topics[t]
  {
    var subs := s.sessions[sid].subscribers;
    var r := UnsubscribeAllSpec(s, sid);
    forall t | t in r.topics
      ensures sid !in r.topics[t]
    {
      if sid in s.topics[t] {
        var g :| g in subs && t in subs[g].topicSubscribers;
        assert t in HeldBy(subs, subs.Keys);
      }
    }
  }

  /** unsubscribe as written, on a session whose filters each hold their
      own topics, finds no other holder for any topic of the filter: no
      topic drops the session, and the remaining filters still each hold
      their own topics. */
  lemma UnsubscribeAsWrittenOwnTopics(s: State, sid: SessionId, f: string)
    requires sid in s.sessions && f in s.sessions[sid].subscribers
    requires OneFilterPerTopic(s.sessions[sid].subscribers)
    ensures UnsubscribeAsWrittenSpec(s, sid, f).topics == s.topics
    ensures OneFilterPerTopic(UnsubscribeAsWrittenSpec(s, sid, f).sessions[sid].subscribers)
  {
    var subs := s.sessions[sid].subscribers;
    var rest := subs - {f};
    var ts := subs[f].topicSubscribers.Keys;
    forall t | t in ts
      ensures t !in HeldBy(rest, rest.Keys)
    {
      forall g | g in rest
        ensures t !in rest[g].topicSubscribers
      {
        assert g != f && t in subs[f].topicSubscribers;
      }
    }
    assert ts * HeldBy(rest, rest.Keys) == {};
    assert DropSession(s.topics, sid, {}) == s.topics;
  }

  /** Unsubscribing every filter as written, in whatever order, leaves
      every topic's map of sessions as it was. */
  lemma {:induction false} UnsubscribeAllAsWrittenKeepsTopics(s: State, sid: SessionId)
    requires sid in s.sessions && OneFilterPerTopic(s.sessions[sid].subscribers)
    ensures UnsubscribeAllAsWrittenSpec(s, sid).topics == s.topics
    decreases |s.sessions[sid].subscribers.Keys|
  {
    var subs := s.sessions[sid].subscribers;
    if subs.Keys != {} {
      forall f | f in subs
        ensures UnsubscribeAllAsWrittenSpec(UnsubscribeAsWrittenSpec(s, sid, f), sid).topics == s.topics
      {
        UnsubscribeAsWrittenOwnTopics(s, sid, f);
        UnsubscribeAllAsWrittenKeepsTopics(UnsubscribeAsWrittenSpec(s, sid, f), sid);
      }
    }
  }

  /** disconnect as written, on a session whose filters each hold their
      own topics and that the registry maps its client id to (or that is
      not registered): the session ends disconnected with no filter, yet no
      topic's map of sessions changes, so every topic it was attached to
      still maps it to the same cursor and keeps pushing to it. */
  lemma DisconnectAsWrittenLeavesStrays(s: State, sid: SessionId)
    requires sid in s.sessions && !s.sessions[sid].disconnect && OneFilterPerTopic(s.sessions[sid].subscribers)
    requires s.sessions[sid].clientId in s.grantSessions ==> s.grantSessions[s.sessions[sid].clientId] == sid
    ensures var r := DisconnectAsWrittenSpec(s, sid);
      && r.topics == s.topics
      && r.sessions[sid].subscribers == map[]
      && r.sessions[sid].disconnect
  {
    DisconnectPrefixAsWrittenKeeps(s, sid);
    var (s3, removed) := DisconnectPrefixAsWritten(s, sid);
    assert DisconnectAsWrittenSpec(s, sid) == s3.(sessions := s3.sessions[sid := s3.sessions[sid].(disconnect := true)]);
  }

  /** The first steps of disconnect as written: no topic changes and the
      registry hands back no other session. */
  lemma DisconnectPrefixAsWrittenKeeps(s: State, sid: SessionId)
    requires sid in s.sessions && OneFilterPerTopic(s.sessions[sid].subscribers)
    requires s.sessions[sid].clientId in s.grantSessions ==> s.grantSessions[s.sessions[sid].clientId] == sid
    ensures var r := DisconnectPrefixAsWritten(s, sid);
      && r.0.topics == s.topics
      && r.0.sessions[sid].subscribers == map[]
      && (r.1.None? || r.1.value == sid)
  {
    var sess := s.sessions[sid];
    var s1 := if sess.authorized && sess.cleanSession
              then s.(storedStates := s.storedStates - {sess.clientId}) else s;
    assert s1.sessions[sid].subscribers == sess.subscribers;
    UnsubscribeAllAsWrittenKeepsTopics(s1, sid);
  }

  /** The corrected first steps of disconnect, from a session in step,
      detach it from every topic. */
  lemma DisconnectPrefixDetaches(s: State, sid: SessionId)
    requires SessionMirror(s, sid)
    ensures forall t | t in DisconnectPrefix(s, sid).0.topics :: sid !in DisconnectPrefix(s, sid).0.topics[t]
  {
    var sess := s.sessions[sid];
    if sess.authorized && sess.cleanSession {
      StoredStateKeepsMirror(s, sid, s.storedStates - {sess.clientId});
    }
    var s1 := if sess.authorized && sess.cleanSession
              then s.(storedStates := s.storedStates - {sess.clientId}) else s;
    UnsubscribeAllDetaches(s1, sid);
  }

  lemma StoredStateKeepsMirror(s: State, sid: SessionId, stored: set<string>)
    requires SessionMirror(s, sid)
    ensures SessionMirror(s.(storedStates := stored), sid)
  {
  }

  // ---------------------------------------------------------------------
  // The whole broker
  // ---------------------------------------------------------------------

  /** Every session's two views are in step, and topics map only known
      sessions. */
  ghost predicate Mirrored(s: State) {
    && (forall x | x in s.sessions :: SessionMirror(s, x))
    && (forall t, x | t in s.topics && x in s.topics[t] :: x in s.sessions)
  }

  /** Two states with the same topic maps, the same sessions and the same
      filters of each session. */
  ghost predicate SameViews(a: State, b: State) {
    && a.topics == b.topics
    && a.sessions.Keys == b.sessions.Keys
    && forall x | x in a.sessions :: a.sessions[x].subscribers == b.sessions[x].subscribers
  }

  lemma SameViewsMirrored(a: State, b: State)
    requires SameViews(a, b) && Mirrored(a)
    ensures Mirrored(b)
  {
    forall x | x in b.sessions
      ensures SessionMirror(b, x)
    {
      assert SessionMirror(a, x);
    }
  }

  lemma EmptyMirrored()
    ensures Mirrored(EmptyState())
  {
  }

  /** A new session with no filters, under a fresh identity. */
  lemma OpenSessionKeepsMirrored(s: State, sid: SessionId, sess: Session)
    requires Mirrored(s) && sid !in s.sessions && sess.subscribers == map[]
    ensures Mirrored(s.(sessions := s.sessions[sid := sess]))
  {
    var r := s.(sessions := s.sessions[sid := sess]);
    forall x | x in r.sessions
      ensures SessionMirror(r, x)
    {
      if x != sid {
        assert SessionMirror(s, x);
      }
    }
  }

  lemma Unsubscribe0KeepsMirrored(s: State, sid: SessionId, t: string)
    requires sid in s.sessions && Mirrored(s)
    ensures Mirrored(Unsubscribe0Spec(s, sid, t))
  {
    forall x | x in s.sessions
      ensures SessionMirror(Unsubscribe0Spec(s, sid, t), x)
    {
      Unsubscribe0KeepsMirror(s, sid, t, x);
    }
  }

  lemma Subscribe0TopicKeepsMirrored(p: Providers, s: State, sid: SessionId, qos: QoS, filter: string, t: string, now: int)
    requires Mirrored(s)
    ensures Mirrored(Subscribe0TopicSpec(p, s, sid, qos, filter, t, now).0)
  {
    var r := Subscribe0TopicSpec(p, s, sid, qos, filter, t, now).0;
    forall x | x in r.sessions
      ensures SessionMirror(r, x)
    {
      Subscribe0TopicKeepsMirror(p, s, sid, qos, filter, t, now, x);
    }
    if Subscribe0TopicSpec(p, s, sid, qos, filter, t, now).1.Success? {
      assert r.topics[t] == s.topics[t][sid := s.nextCursor];
      forall u, x | u in r.topics && x in r.topics[u]
        ensures x in r.sessions
      {
        if u != t {
          assert x in s.topics[u];
        }
      }
    }
  }

  lemma {:induction false} FireTopicCreateKeepsMirrored(p: Providers, s: State, name: string, ls: seq<Listener>, now: int)
    requires Mirrored(s)
    ensures Mirrored(FireTopicCreate(p, s, name, ls, now))
    decreases |ls|
  {
    if ls != [] {
      var l := ls[0];
      if Enabled(s, l) && p.matches(name, l.filter) {
        Subscribe0TopicKeepsMirrored(p, s, l.session, l.qos, l.filter, name, now);
        FireTopicCreateKeepsMirrored(p, Subscribe0TopicSpec(p, s, l.session, l.qos, l.filter, name, now).0, name, ls[1..], now);
      } else {
        FireTopicCreateKeepsMirrored(p, s, name, ls[1..], now);
      }
    }
  }

  lemma GetOrCreateTopicKeepsMirrored(p: Providers, s: State, name: string, now: int)
    requires Mirrored(s)
    ensures Mirrored(GetOrCreateTopicSpec(p, s, name, now).0)
  {
    if name !in s.topics && !p.containsWildcards(name) {
      var s1 := s.(topics := s.topics[name := map[]], topicLog := s.topicLog + [name]);
      forall x | x in s1.sessions
        ensures SessionMirror(s1, x)
      {
        assert SessionMirror(s, x);
      }
      FireTopicCreateKeepsMirrored(p, s1, name, s1.listeners, now);
    }
  }

  lemma {:induction false} SubscribeMatchingKeepsMirrored(p: Providers, s: State, sid: SessionId, qos: QoS, filter: string,
                                                          names: seq<string>, now: int)
    requires Mirrored(s)
    ensures Mirrored(SubscribeMatching(p, s, sid, qos, filter, names, now).0)
    decreases |names|
  {
    if names != [] {
      var t := names[0];
      if t in s.topics && p.matches(t, filter) {
        Subscribe0TopicKeepsMirrored(p, s, sid, qos, filter, t, now);
        var (s1, r1) := Subscribe0TopicSpec(p, s, sid, qos, filter, t, now);
        if r1.Success? {
          SubscribeMatchingKeepsMirrored(p, s1, sid, qos, filter, names[1..], now);
        }
      } else {
        SubscribeMatchingKeepsMirrored(p, s, sid, qos, filter, names[1..], now);
      }
    }
  }

  /** subscribe and resubscribe keep the broker's views in step. */
  lemma Subscribe0FilterKeepsMirrored(p: Providers, s: State, sid: SessionId, filter: string, qos: QoS, monitor: bool, now: int)
    requires Mirrored(s)
    ensures Mirrored(Subscribe0FilterSpec(p, s, sid, filter, qos, monitor, now).0)
  {
    if !p.isWildcards(filter) {
      Subscribe0NameKeepsMirrored(p, s, sid, filter, qos, monitor, now);
    } else {
      Subscribe0WildcardKeepsMirrored(p, s, sid, filter, qos, monitor, now);
    }
  }

  /** subscribe0 on a filter without wildcards: the topic of that name. */
  lemma Subscribe0NameKeepsMirrored(p: Providers, s: State, sid: SessionId, filter: string, qos: QoS, monitor: bool,
                                      now: int)
    requires Mirrored(s) && !p.isWildcards(filter)
    ensures Mirrored(Subscribe0FilterSpec(p, s, sid, filter, qos, monitor, now).0)
  {
    var g := GetOrCreateTopicSpec(p, s, filter, now);
    GetOrCreateTopicKeepsMirrored(p, s, filter, now);
    if g.1.Success? {
      Subscribe0TopicKeepsMirrored(p, g.0, sid, qos, filter, filter, now);
      assert Subscribe0FilterSpec(p, s, sid, filter, qos, monitor, now).0
          == Subscribe0TopicSpec(p, g.0, sid, qos, filter, filter, now).0;
    } else {
      assert Subscribe0FilterSpec(p, s, sid, filter, qos, monitor, now).0 == g.0;
    }
  }

  /** subscribe0 on a wildcard filter: the matching topics, then the
      TOPIC_CREATE listener. */
  lemma Subscribe0WildcardKeepsMirrored(p: Providers, s: State, sid: SessionId, filter: string, qos: QoS, monitor: bool,
                                          now: int)
    requires Mirrored(s) && p.isWildcards(filter)
    ensures Mirrored(Subscribe0FilterSpec(p, s, sid, filter, qos, monitor, now).0)
  {
    var m := SubscribeMatching(p, s, sid, qos, filter, s.topicLog, now);
    SubscribeMatchingKeepsMirrored(p, s, sid, qos, filter, s.topicLog, now);
    var s1 := m.0;
    if m.1.Success? && monitor {
      SameViewsMirrored(s1, s1.(listeners := s1.listeners + [Listener(sid, filter, qos)]));
      assert Subscribe0FilterSpec(p, s, sid, filter, qos, monitor, now).0
          == s1.(listeners := s1.listeners + [Listener(sid, filter, qos)]);
    } else {
      assert Subscribe0FilterSpec(p, s, sid, filter, qos, monitor, now).0 == s1;
    }
  }

  lemma {:induction false} ResubscribeKeepsMirrored(p: Providers, s: State, sid: SessionId, order: seq<string>, now: int)
    requires Mirrored(s)
    ensures Mirrored(ResubscribeSpec(p, s, sid, order, now).0)
    decreases |order|
  {
    if order != [] {
      if sid in s.sessions && order[0] in s.sessions[sid].subscribers {
        var qos := s.sessions[sid].subscribers[order[0]].qos;
        Subscribe0FilterKeepsMirrored(p, s, sid, order[0], qos, false, now);
        var (s1, r1) := Subscribe0FilterSpec(p, s, sid, order[0], qos, false, now);
        if r1.Success? {
          ResubscribeKeepsMirrored(p, s1, sid, order[1..], now);
        }
      } else {
        ResubscribeKeepsMirrored(p, s, sid, order[1..], now);
      }
    }
  }

  lemma UnsubscribeKeepsMirrored(s: State, sid: SessionId, f: string)
    requires sid in s.sessions && f in s.sessions[sid].subscribers && Mirrored(s)
    ensures Mirrored(UnsubscribeSpec(s, sid, f))
  {
    forall x | x in s.sessions
      ensures SessionMirror(UnsubscribeSpec(s, sid, f), x)
    {
      UnsubscribeKeepsMirror(s, sid, f, x);
    }
  }

  lemma UnsubscribeAllKeepsMirrored(s: State, sid: SessionId)
    requires sid in s.sessions && Mirrored(s)
    ensures Mirrored(UnsubscribeAllSpec(s, sid))
  {
    var r := UnsubscribeAllSpec(s, sid);
    UnsubscribeAllDetaches(s, sid);
    forall x | x in r.sessions
      ensures SessionMirror(r, x)
    {
      if x != sid {
        assert SessionMirror(s, x);
        forall u | u in s.topics
          ensures x in r.topics[u] <==> x in s.topics[u]
          ensures x in r.topics[u] ==> r.topics[u][x] == s.topics[u][x]
        {
        }
      }
    }
  }

  lemma StoredStatesKeepMirrored(s: State, stored: set<string>)
    requires Mirrored(s)
    ensures Mirrored(s.(storedStates := stored))
  {
    SameViewsMirrored(s, s.(storedStates := stored));
  }

  lemma RemoveSessionKeepsMirrored(s: State, clientId: string)
    requires Mirrored(s)
    ensures Mirrored(RemoveSessionSpec(s, clientId).0)
  {
    SameViewsMirrored(s, RemoveSessionSpec(s, clientId).0);
  }

  lemma DisconnectFlagKeepsMirrored(s: State, sid: SessionId)
    requires sid in s.sessions && Mirrored(s)
    ensures Mirrored(s.(sessions := s.sessions[sid := s.sessions[sid].(disconnect := true)]))
  {
    SameViewsMirrored(s, s.(sessions := s.sessions[sid := s.sessions[sid].(disconnect := true)]));
  }

  lemma DisconnectPrefixKeepsMirrored(s: State, sid: SessionId)
    requires sid in s.sessions && Mirrored(s)
    ensures Mirrored(DisconnectPrefix(s, sid).0)
  {
    var sess := s.sessions[sid];
    var s1 := if sess.authorized && sess.cleanSession
              then s.(storedStates := s.storedStates - {sess.clientId}) else s;
    StoredStatesKeepMirrored(s, s1.storedStates);
    assert s1 == s.(storedStates := s1.storedStates);
    UnsubscribeAllKeepsMirrored(s1, sid);
    RemoveSessionKeepsMirrored(UnsubscribeAllSpec(s1, sid), sess.clientId);
  }

  /** disconnect keeps the broker's views in step. */
  lemma {:induction false} DisconnectKeepsMirrored(s: State, sid: SessionId)
    requires sid in s.sessions && Mirrored(s)
    ensures Mirrored(DisconnectSpec(s, sid))
    decreases s.grantSessions.Keys
  {
    if !s.sessions[sid].disconnect {
      DisconnectPrefixKeepsMirrored(s, sid);
      var (s3, removed) := DisconnectPrefix(s, sid);
      var s4 := if removed.Some? && removed.value != sid && removed.value in s3.sessions
                then DisconnectSpec(s3, removed.value) else s3;
      if removed.Some? && removed.value != sid && removed.value in s3.sessions {
        DisconnectKeepsMirrored(s3, removed.value);
      }
      DisconnectFlagKeepsMirrored(s4, sid);
    }
  }
}

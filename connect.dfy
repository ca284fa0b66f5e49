/** ConnectProcessor of the older broker tree: the ordered checks a CONNECT
    packet goes through (MQTT 3.1.1 sections 3.1.2.1-3.1.2.3, 3.1.3.1 and
    3.2.2.3), the session refresh, and the CONNACK that ends a successful
    connect. */
module ConnectProcessing {

  import opened Wrappers
  import opened MqttTypes
  import opened MqttVersions
  import MqttCodecUtil

  /** MqttConnectReturnCode: the codes this processor sends. */
  datatype ReturnCode = CONNECTION_ACCEPTED | UNACCEPTABLE_PROTOCOL_VERSION | IDENTIFIER_REJECTED {
    function Value(): byte {
      match this
      case CONNECTION_ACCEPTED => 0x00
      case UNACCEPTABLE_PROTOCOL_VERSION => 0x01
      case IDENTIFIER_REJECTED => 0x02
    }
  }

  /** A CONNACK: return code and session-present flag (built with a CONNACK
      fixed header without flags). */
  datatype ConnAck = ConnAck(returnCode: ReturnCode, sessionPresent: bool)

  /** What the checks read from a CONNECT packet. */
  datatype ConnectRequest = ConnectRequest(
    protocolName: string,
    protocolLevel: int,
    reserved: int,
    cleanSession: bool,
    clientId: string)

  /** The end of checkMessage: either a check failed, the session is closed
      and at most one CONNACK went out, or every check passed and the version
      is known. */
  datatype CheckOutcome = Refused(ack: Option<ConnAck>) | Passed(version: MqttVersion)

  /** The 3.1 identifier check: a non-blank id longer than 23 characters. */
  predicate InvalidClient(version: MqttVersion, clientId: string) {
    !IsBlank(clientId) && version == MQTT_3_1 && |clientId| > MqttCodecUtil.MaxClientIdLength
  }

  /** The last check as written at line 99: it lets a CONNECT through only
      when cleanSession is set or the id is blank. */
  predicate SessionCheckAsWritten(req: ConnectRequest) {
    req.cleanSession || IsBlank(req.clientId)
  }

  /** The last check as the comment above it describes it (MQTT 3.1.1
      section 3.1.3.1): a blank id is refused when cleanSession is 0. */
  predicate SessionCheck(req: ConnectRequest) {
    req.cleanSession || !IsBlank(req.clientId)
  }

  /** checkMessage with the given last check, each check aborting the
      processing after its callback ran. */
  function CheckWith(req: ConnectRequest, lastCheck: bool): (r: CheckOutcome)
    ensures ProtocolByName(req.protocolName).None? ==> r == Refused(None)
    ensures (ProtocolByName(req.protocolName).Some? &&
             GetByProtocolWithVersion(ProtocolByName(req.protocolName).value, req.protocolLevel).None?) ==>
      r == Refused(Some(ConnAck(UNACCEPTABLE_PROTOCOL_VERSION, false)))
    ensures (ProtocolByName(req.protocolName).Some? &&
             GetByProtocolWithVersion(ProtocolByName(req.protocolName).value, req.protocolLevel).Some?) ==>
      var version := GetByProtocolWithVersion(ProtocolByName(req.protocolName).value, req.protocolLevel).value;
      && (req.reserved != 0 ==> r == Refused(None))
      && (req.reserved == 0 && InvalidClient(version, req.clientId) ==>
            r == Refused(Some(ConnAck(IDENTIFIER_REJECTED, false))))
      && (req.reserved == 0 && !InvalidClient(version, req.clientId) && !lastCheck ==>
            r == Refused(Some(ConnAck(IDENTIFIER_REJECTED, false))))
    ensures r.Passed? <==>
      && ProtocolByName(req.protocolName).Some?
      && GetByProtocolWithVersion(ProtocolByName(req.protocolName).value, req.protocolLevel).Some?
      && req.reserved == 0
      && !InvalidClient(GetByProtocolWithVersion(ProtocolByName(req.protocolName).value, req.protocolLevel).value, req.clientId)
      && lastCheck
    ensures r.Passed? ==>
      r.version.ProtocolName() == req.protocolName && r.version.ProtocolLevel() == req.protocolLevel
    ensures r.Refused? && r.ack.Some? ==> !r.ack.value.sessionPresent && r.ack.value.returnCode != CONNECTION_ACCEPTED
  {
    match ProtocolByName(req.protocolName)
    case None => Refused(None)
    case Some(protocol) =>
      match GetByProtocolWithVersion(protocol, req.protocolLevel)
      case None => Refused(Some(ConnAck(UNACCEPTABLE_PROTOCOL_VERSION, false)))
      case Some(version) =>
        GetByProtocolWithVersionSpec(protocol, req.protocolLevel);
        if req.reserved != 0 then Refused(None)
        else if InvalidClient(version, req.clientId) then Refused(Some(ConnAck(IDENTIFIER_REJECTED, false)))
        else if !lastCheck then Refused(Some(ConnAck(IDENTIFIER_REJECTED, false)))
        else Passed(version)
  }

  function CheckMessageAsWritten(req: ConnectRequest): CheckOutcome {
    CheckWith(req, SessionCheckAsWritten(req))
  }

  function CheckMessage(req: ConnectRequest): CheckOutcome {
    CheckWith(req, SessionCheck(req))
  }

  /** As written, a CONNECT that asks for a persistent session under a real
      client id is refused with identifier-rejected, and one with a blank id
      is let through. */
  lemma SessionCheckInverted()
    ensures CheckMessageAsWritten(ConnectRequest("MQTT", 4, 0, false, "sensor-1")) == Refused(Some(ConnAck(IDENTIFIER_REJECTED, false)))
    ensures CheckMessageAsWritten(ConnectRequest("MQTT", 4, 0, false, "")) == Passed(MQTT_3_1_1)
    ensures CheckMessage(ConnectRequest("MQTT", 4, 0, false, "sensor-1")) == Passed(MQTT_3_1_1)
    ensures CheckMessage(ConnectRequest("MQTT", 4, 0, false, "")) == Refused(Some(ConnAck(IDENTIFIER_REJECTED, false)))
  {
    var id := "sensor-1";
    assert !IsWhitespace(id[0]);
    assert !IsBlank(id);
    VersionTable();
  }

  /** What a passed check guarantees: a known protocol at its own level, a
      zero reserved flag, under 3.1 a valid identifier (or a blank one, which
      the session refresh replaces), and no blank id without cleanSession. */
  lemma CheckMessagePassed(req: ConnectRequest)
    requires CheckMessage(req).Passed?
    ensures req.reserved == 0
    ensures CheckMessage(req).version == MQTT_3_1 && !IsBlank(req.clientId) ==>
      MqttCodecUtil.IsValidClientId(Some(MQTT_3_1), Some(req.clientId)) == Success(true)
    ensures !req.cleanSession ==> !IsBlank(req.clientId)
  {
    if !IsBlank(req.clientId) {
      assert |req.clientId| > 0;
    }
  }

  /* ---------------- sessions and their context ---------------- */

  /** The parts of the older MqttSession this processor uses. */
  class Session {
    var clientId: string
    var closed: bool
    /** The CONNACKs written to the client. */
    var written: seq<ConnAck>

    constructor (clientId: string)
      ensures this.clientId == clientId && !closed && written == []
    {
      this.clientId := clientId;
      closed := false;
      written := [];
    }

    method Write(ack: ConnAck)
      modifies this`written
      ensures written == old(written) + [ack]
    {
      written := written + [ack];
    }

    method Close()
      modifies this`closed
      ensures closed
    {
      closed := true;
    }
  }

  /** The session registry of MqttContext, by client id. */
  class ConnectContext {
    var sessions: map<string, Session>

    constructor ()
      ensures sessions == map[]
    {
      sessions := map[];
    }

    function GetSession(clientId: string): (r: Option<Session>)
      reads this
      ensures r.Some? <==> clientId in sessions
      ensures r.Some? ==> r.value == sessions[clientId]
    {
      if clientId in sessions then Some(sessions[clientId]) else None
    }

    method RemoveSession(clientId: string)
      modifies this
      ensures sessions == old(sessions) - {clientId}
    {
      sessions := sessions - {clientId};
    }

    method AddSession(session: Session)
      modifies this
      ensures sessions == old(sessions)[session.clientId := session]
    {
      sessions := sessions[session.clientId := session];
    }
  }

  /** refreshSession: the final client id is a generated one for a clean
      session with a blank id and the given one otherwise; the session is
      registered under it, replacing any other; a clean session drops the
      previous one and a persistent one also closes it. */
  method RefreshSession(context: ConnectContext, session: Session, req: ConnectRequest, generatedId: string)
    requires !IsBlank(generatedId)
    modifies context, session`clientId, context.sessions.Values
    ensures var finalId := if req.cleanSession && IsBlank(req.clientId) then generatedId else req.clientId;
      && session.clientId == finalId
      && context.sessions == old(context.sessions)[finalId := session]
    ensures !req.cleanSession && req.clientId in old(context.sessions) ==> old(context.sessions)[req.clientId].closed
    ensures forall s | s in old(context.sessions.Values) ::
      s.written == old(s.written) &&
      (s.closed == old(s.closed) || (!req.cleanSession && req.clientId in old(context.sessions) && s == old(context.sessions)[req.clientId]))
    ensures forall s | s in old(context.sessions.Values) && s != session :: s.clientId == old(s.clientId)
  {
    var clientId := req.clientId;
    if req.cleanSession {
      if IsBlank(clientId) {
        clientId := generatedId;
      } else {
        context.RemoveSession(clientId);
      }
    } else {
      var mqttSession := context.GetSession(clientId);
      if mqttSession.Some? {
        context.RemoveSession(clientId);
        mqttSession.value.Close();
      }
    }
    session.clientId := clientId;
    context.AddSession(session);
  }

  /** process: a refused CONNECT leaves the registry as it was, closes the
      session and sends what the failed check sends; one that passes
      refreshes the session and is answered with CONNACK accepted, session
      present. */
  method Process(context: ConnectContext, session: Session, req: ConnectRequest, generatedId: string)
    returns (outcome: CheckOutcome)
    requires !IsBlank(generatedId)
    modifies context, session, context.sessions.Values
    ensures outcome == CheckMessage(req)
    ensures outcome.Refused? ==>
      && context.sessions == old(context.sessions)
      && session.closed
      && session.clientId == old(session.clientId)
      && session.written == old(session.written) + (if outcome.ack.Some? then [outcome.ack.value] else [])
    ensures outcome.Refused? ==>
      forall s | s in old(context.sessions.Values) && s != session ::
        s.clientId == old(s.clientId) && s.closed == old(s.closed) && s.written == old(s.written)
    ensures outcome.Passed? ==>
      var finalId := if req.cleanSession && IsBlank(req.clientId) then generatedId else req.clientId;
      && session.clientId == finalId
      && context.sessions == old(context.sessions)[finalId := session]
      && session.written == old(session.written) + [ConnAck(CONNECTION_ACCEPTED, true)]
    ensures outcome.Passed? ==>
      session.closed == old(session.closed) ||
      (!req.cleanSession && req.clientId in old(context.sessions) && session == old(context.sessions)[req.clientId])
    ensures outcome.Passed? && !req.cleanSession && req.clientId in old(context.sessions) ==>
      old(context.sessions)[req.clientId].closed
    ensures outcome.Passed? ==>
      forall s | s in old(context.sessions.Values) && s != session ::
        && s.clientId == old(s.clientId) && s.written == old(s.written)
        && (s.closed == old(s.closed) || (!req.cleanSession && req.clientId in old(context.sessions) && s == old(context.sessions)[req.clientId]))
  {
    outcome := CheckMessage(req);
    if outcome.Refused? {
      if outcome.ack.Some? {
        session.Write(outcome.ack.value);
      }
      session.Close();
      return;
    }
    // login accepts every client, so its check never aborts
    RefreshSession(context, session, req, generatedId);
    session.Write(ConnAck(CONNECTION_ACCEPTED, true));
  }
}

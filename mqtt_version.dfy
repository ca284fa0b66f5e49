/** MqttVersion: the table of supported protocol versions and its two lookups
    (MQTT 3.1.1 sections 3.1.2.1 and 3.1.2.2). */
module MqttVersions {

  import opened Wrappers
  import opened MqttTypes

  /** MqttProtocolEnum: the protocol name a CONNECT packet carries. The enum
      is not part of this model; its names are those the two protocol
      revisions define, "MQIsdp" for 3.1 and "MQTT" for 3.1.1. */
  datatype MqttProtocol = Protocol3_1 | Protocol3_1_1 {
    function Name(): string {
      match this
      case Protocol3_1 => "MQIsdp"
      case Protocol3_1_1 => "MQTT"
    }
  }

  /** MqttProtocolEnum in declaration order. */
  const Protocols: seq<MqttProtocol> := [Protocol3_1, Protocol3_1_1]

  /** MqttProtocolEnum.getByName: the first protocol with that name, if any. */
  function ProtocolByName(name: string): (r: Option<MqttProtocol>)
    ensures r.Some? <==> exists p: MqttProtocol :: p.Name() == name
    ensures r.Some? ==> r.value.Name() == name
  {
    if name == Protocol3_1.Name() then Some(Protocol3_1)
    else if name == Protocol3_1_1.Name() then Some(Protocol3_1_1)
    else None
  }

  datatype MqttVersion = MQTT_3_1 | MQTT_3_1_1 {
    /** The protocol given to the enum constant's constructor. */
    function Protocol(): MqttProtocol {
      match this
      case MQTT_3_1 => Protocol3_1
      case MQTT_3_1_1 => Protocol3_1_1
    }

    /** protocolLevel(): the level given to the enum constant's constructor. */
    function ProtocolLevel(): byte {
      match this
      case MQTT_3_1 => 3
      case MQTT_3_1_1 => 4
    }

    /** protocolName(): the name of the version's protocol. */
    function ProtocolName(): string {
      Protocol().Name()
    }
  }

  /** values(): the enum constants in declaration order. */
  const Versions: seq<MqttVersion> := [MQTT_3_1, MQTT_3_1_1]

  /** MqttUnacceptableProtocolVersionException, with the two reasons the
      source puts in its message. */
  datatype VersionError =
    | LevelMismatch(name: string, level: int)
    | UnknownProtocolName(name: string)

  /** The loop of fromProtocolNameAndLevel over the versions still to visit:
      the first version whose name matches decides, by its level, between a
      result and an exception. */
  function FromNameAndLevelIn(vs: seq<MqttVersion>, name: string, level: int): Result<MqttVersion, VersionError>
  {
    if |vs| == 0 then Failure(UnknownProtocolName(name))
    else if vs[0].ProtocolName() == name then
      (if vs[0].ProtocolLevel() == level then Success(vs[0]) else Failure(LevelMismatch(name, level)))
    else FromNameAndLevelIn(vs[1..], name, level)
  }

  function FromProtocolNameAndLevel(name: string, level: int): Result<MqttVersion, VersionError> {
    FromNameAndLevelIn(Versions, name, level)
  }

  /** The first version in vs whose protocol name is `name`, if any. */
  lemma {:induction false} FirstNameDecides(vs: seq<MqttVersion>, name: string, level: int, k: nat)
    requires k < |vs| && vs[k].ProtocolName() == name
    requires forall j | 0 <= j < k :: vs[j].ProtocolName() != name
    ensures FromNameAndLevelIn(vs, name, level) ==
      if vs[k].ProtocolLevel() == level then Success(vs[k]) else Failure(LevelMismatch(name, level))
  {
    if k > 0 {
      FirstNameDecides(vs[1..], name, level, k - 1);
    }
  }

  lemma {:induction false} UnknownNameFails(vs: seq<MqttVersion>, name: string, level: int)
    requires forall j | 0 <= j < |vs| :: vs[j].ProtocolName() != name
    ensures FromNameAndLevelIn(vs, name, level) == Failure(UnknownProtocolName(name))
  {
    if |vs| > 0 {
      UnknownNameFails(vs[1..], name, level);
    }
  }

  /** fromProtocolNameAndLevel over the real table: a known name with its own
      level gives that version, a known name with another level fails with
      the mismatch reason, and any other name fails as unknown. */
  lemma FromProtocolNameAndLevelSpec(name: string, level: int)
    ensures forall v: MqttVersion ::
      (v.ProtocolName() == name && v.ProtocolLevel() == level ==> FromProtocolNameAndLevel(name, level) == Success(v))
    ensures (exists v: MqttVersion :: v.ProtocolName() == name) && (forall v: MqttVersion :: v.ProtocolName() == name ==> v.ProtocolLevel() != level)
      ==> FromProtocolNameAndLevel(name, level) == Failure(LevelMismatch(name, level))
    ensures (forall v: MqttVersion :: v.ProtocolName() != name)
      ==> FromProtocolNameAndLevel(name, level) == Failure(UnknownProtocolName(name))
  {
    if name == MQTT_3_1.ProtocolName() {
      FirstNameDecides(Versions, name, level, 0);
    } else if name == MQTT_3_1_1.ProtocolName() {
      FirstNameDecides(Versions, name, level, 1);
    } else {
      UnknownNameFails(Versions, name, level);
    }
  }

  /** The loop of getByProtocolWithVersion over the versions still to visit. */
  function ByProtocolWithVersionIn(vs: seq<MqttVersion>, protocol: MqttProtocol, level: int): (r: Option<MqttVersion>)
    ensures r.Some? ==> r.value in vs && r.value.Protocol() == protocol && r.value.ProtocolLevel() == level
    ensures r.None? <==> forall j | 0 <= j < |vs| :: !(vs[j].Protocol() == protocol && vs[j].ProtocolLevel() == level)
  {
    if |vs| == 0 then None
    else if vs[0].Protocol() == protocol && vs[0].ProtocolLevel() == level then Some(vs[0])
    else ByProtocolWithVersionIn(vs[1..], protocol, level)
  }

  function GetByProtocolWithVersion(protocol: MqttProtocol, level: int): Option<MqttVersion> {
    ByProtocolWithVersionIn(Versions, protocol, level)
  }

  /** getByProtocolWithVersion finds a version exactly when both its protocol
      and its level match. */
  lemma GetByProtocolWithVersionSpec(protocol: MqttProtocol, level: int)
    ensures forall v: MqttVersion ::
      GetByProtocolWithVersion(protocol, level) == Some(v) <==> v.Protocol() == protocol && v.ProtocolLevel() == level
  {
    assert Versions[0] == MQTT_3_1 && Versions[1] == MQTT_3_1_1;
    assert Versions[1..] == [MQTT_3_1_1] && Versions[1..][1..] == [];
  }

  /** Each version is found again from its own protocol and level, and from
      its own name and level. */
  lemma {:induction false} VersionRoundTrip(v: MqttVersion)
    ensures GetByProtocolWithVersion(v.Protocol(), v.ProtocolLevel()) == Some(v)
    ensures FromProtocolNameAndLevel(v.ProtocolName(), v.ProtocolLevel()) == Success(v)
  {
    FromProtocolNameAndLevelSpec(v.ProtocolName(), v.ProtocolLevel());
    GetByProtocolWithVersionSpec(v.Protocol(), v.ProtocolLevel());
  }

  /** The table: 3.1 speaks protocol level 3, 3.1.1 level 4. */
  lemma VersionTable()
    ensures MQTT_3_1.Protocol() == Protocol3_1 && MQTT_3_1.ProtocolLevel() == 3
    ensures MQTT_3_1_1.Protocol() == Protocol3_1_1 && MQTT_3_1_1.ProtocolLevel() == 4
    ensures MQTT_3_1_1.ProtocolName() == "MQTT"
  {
  }
}

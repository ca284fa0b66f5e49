/** Protocol vocabulary shared by every part of the model: bytes, quality of
    service levels, control packet types and the fixed header
    (MQTT 3.1.1 sections 2.2.1 and 2.2.2). */
module MqttTypes {

  import opened Wrappers

  type byte = x: int | 0 <= x < 256

  /** MqttQoS: the three delivery levels and the SUBACK failure code 0x80. */
  datatype QoS = AT_MOST_ONCE | AT_LEAST_ONCE | EXACTLY_ONCE | FAILURE {
    function Value(): (v: byte)
      ensures this == FAILURE <==> v == 0x80
      ensures this != FAILURE ==> v <= 2
    {
      match this
      case AT_MOST_ONCE => 0
      case AT_LEAST_ONCE => 1
      case EXACTLY_ONCE => 2
      case FAILURE => 0x80
    }
  }

  /** MqttQoS.valueOf: the level with the given value, if any. */
  function QoSOf(v: int): (r: Option<QoS>)
    ensures r.Some? <==> v in {0, 1, 2, 0x80}
    ensures r.Some? ==> r.value.Value() == v
  {
    if v == 0 then Some(AT_MOST_ONCE)
    else if v == 1 then Some(AT_LEAST_ONCE)
    else if v == 2 then Some(EXACTLY_ONCE)
    else if v == 0x80 then Some(FAILURE)
    else None
  }

  /** MqttMessageType: the fourteen control packet types, plus the two
      reserved type values 0 and 15 that no switch in the source handles. */
  datatype MessageType =
    | FORBIDDEN
    | CONNECT | CONNACK | PUBLISH | PUBACK | PUBREC | PUBREL | PUBCOMP
    | SUBSCRIBE | SUBACK | UNSUBSCRIBE | UNSUBACK | PINGREQ | PINGRESP | DISCONNECT
    | RESERVED
  {
    /** The 4-bit type value of MQTT 3.1.1 section 2.2.1. */
    function Value(): (v: int)
      ensures 0 <= v < 16
    {
      match this
      case FORBIDDEN => 0
      case CONNECT => 1
      case CONNACK => 2
      case PUBLISH => 3
      case PUBACK => 4
      case PUBREC => 5
      case PUBREL => 6
      case PUBCOMP => 7
      case SUBSCRIBE => 8
      case SUBACK => 9
      case UNSUBSCRIBE => 10
      case UNSUBACK => 11
      case PINGREQ => 12
      case PINGRESP => 13
      case DISCONNECT => 14
      case RESERVED => 15
    }
  }

  /** MqttFixedHeader: type, DUP flag, QoS, RETAIN flag and remaining length. */
  datatype FixedHeader = FixedHeader(
    messageType: MessageType,
    isDup: bool,
    qosLevel: QoS,
    isRetain: bool,
    remainingLength: int)

  /** Character.isWhitespace: the space separators other than the no-break
      spaces, the line and paragraph separators, and the controls
      U+0009-U+000D and U+001C-U+001F. */
  predicate IsWhitespace(c: char) {
    || c == ' ' || ('\t' <= c <= '\r') || ('\U{1C}' <= c <= '\U{1F}')
    || c == '\U{1680}' || ('\U{2000}' <= c <= '\U{2006}') || ('\U{2008}' <= c <= '\U{200A}')
    || c == '\U{2028}' || c == '\U{2029}' || c == '\U{205F}' || c == '\U{3000}'
  }

  /** StringUtils.isBlank for a non-null string: empty or only whitespace. */
  predicate IsBlank(s: string) {
    forall i | 0 <= i < |s| :: IsWhitespace(s[i])
  }
}

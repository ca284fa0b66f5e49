/** MqttCodecUtil: the validity checks applied while decoding packets and the
    normalisation of flags that a packet type does not use
    (MQTT 3.1.1 sections 2.2.2, 2.3.1, 3.1.3.1 and 4.7.1). */
module MqttCodecUtil {

  import opened Wrappers
  import opened MqttTypes
  import opened MqttVersions

  const TopicWildcards: seq<char> := ['#', '+']
  const MinClientIdLength := 1
  const MaxClientIdLength := 23

  /** The loop over TOPIC_WILDCARDS: true when no character of `cs` occurs
      in the name. */
  function NoneOccurs(cs: seq<char>, topicName: string): (r: bool)
    ensures r <==> forall i | 0 <= i < |cs| :: cs[i] !in topicName
  {
    if |cs| == 0 then true
    else if cs[0] in topicName then false
    else NoneOccurs(cs[1..], topicName)
  }

  /** A publish topic name may not contain either wildcard character. */
  function IsValidPublishTopicName(topicName: string): (r: bool)
    ensures r <==> '#' !in topicName && '+' !in topicName
  {
    assert TopicWildcards[0] == '#' && TopicWildcards[1] == '+' && |TopicWildcards| == 2;
    NoneOccurs(TopicWildcards, topicName)
  }

  /** MqttUtil.containsTopicWildcards, which the broker uses to refuse topic
      names, is the negation of the publish topic name check. */
  predicate ContainsTopicWildcards(topicName: string) {
    !IsValidPublishTopicName(topicName)
  }

  /** A packet identifier is valid when it is not zero. */
  function IsValidMessageId(messageId: int): (r: bool)
    ensures r ==> messageId != 0
    ensures messageId != 0 ==> r
  {
    messageId != 0
  }

  /** IllegalArgumentException for a version that is neither of the two. */
  datatype UnknownVersion = UnknownVersion

  /** Client identifier rules per version; `None` stands for a null
      reference, for the version as for the identifier. */
  function IsValidClientId(mqttVersion: Option<MqttVersion>, clientId: Option<string>): (r: Result<bool, UnknownVersion>)
    ensures mqttVersion.None? <==> r.Failure?
    ensures mqttVersion == Some(MQTT_3_1) ==>
      r == Success(clientId.Some? && 1 <= |clientId.value| <= 23)
    ensures mqttVersion == Some(MQTT_3_1_1) ==> r == Success(clientId.Some?)
  {
    match mqttVersion
    case Some(MQTT_3_1) =>
      Success(clientId.Some? && |clientId.value| >= MinClientIdLength && |clientId.value| <= MaxClientIdLength)
    case Some(MQTT_3_1_1) =>
      Success(clientId.Some?)
    case None =>
      Failure(UnknownVersion)
  }

  /** Packet types whose fixed header flags are all reserved and must be 0. */
  predicate FlagsReserved(t: MessageType) {
    t in {CONNECT, CONNACK, PUBACK, PUBREC, PUBCOMP, SUBACK, UNSUBACK, PINGREQ, PINGRESP, DISCONNECT}
  }

  /** Packet types that keep DUP and QoS but never carry RETAIN. */
  predicate RetainReserved(t: MessageType) {
    t in {PUBREL, SUBSCRIBE, UNSUBSCRIBE}
  }

  /** resetUnusedFields: a header with the flags the packet type does not use
      cleared, or the very same header when there is nothing to clear. */
  function ResetUnusedFields(h: FixedHeader): (r: FixedHeader)
    ensures r.messageType == h.messageType && r.remainingLength == h.remainingLength
    ensures FlagsReserved(h.messageType) ==>
      !r.isDup && r.qosLevel == AT_MOST_ONCE && !r.isRetain
    ensures RetainReserved(h.messageType) ==>
      r.isDup == h.isDup && r.qosLevel == h.qosLevel && !r.isRetain
    ensures !FlagsReserved(h.messageType) && !RetainReserved(h.messageType) ==> r == h
  {
    match h.messageType
    case CONNECT | CONNACK | PUBACK | PUBREC | PUBCOMP | SUBACK | UNSUBACK | PINGREQ | PINGRESP | DISCONNECT =>
      if h.isDup || h.qosLevel != AT_MOST_ONCE || h.isRetain then
        FixedHeader(h.messageType, false, AT_MOST_ONCE, false, h.remainingLength)
      else h
    case PUBREL | SUBSCRIBE | UNSUBSCRIBE =>
      if h.isRetain then
        FixedHeader(h.messageType, h.isDup, h.qosLevel, false, h.remainingLength)
      else h
    case _ => h
  }

  /** A header whose unused flags are already clear comes back unchanged, so
      normalising twice is normalising once. */
  lemma ResetUnusedFieldsIdempotent(h: FixedHeader)
    ensures ResetUnusedFields(ResetUnusedFields(h)) == ResetUnusedFields(h)
    ensures ResetUnusedFields(h) == h <==>
      (FlagsReserved(h.messageType) ==> !h.isDup && h.qosLevel == AT_MOST_ONCE && !h.isRetain) &&
      (RetainReserved(h.messageType) ==> !h.isRetain)
  {
  }
}

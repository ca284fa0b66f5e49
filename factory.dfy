/** MqttMessageFactory: the decoder's dispatch from a fixed header to the
    message object of its control packet type. */
module MessageFactory {

  import opened Wrappers
  import opened MqttTypes

  /** The message classes the factory constructs, plus the invalid message. */
  datatype MessageKind =
    | ConnectMessage | ConnAckMessage | PublishMessage | PubAckMessage
    | PubRecMessage | PubRelMessage | PubCompMessage | SubscribeMessage
    | SubAckMessage | UnsubscribeMessage | UnsubAckMessage | PingReqMessage
    | PingRespMessage | DisconnectMessage | InvalidMessage

  /** A constructed message: its class and the fixed header it was given
      (None for the invalid message, built with a null header). */
  datatype Message = Message(kind: MessageKind, fixedHeader: Option<FixedHeader>)

  /** The IllegalArgumentException of the default branch. */
  datatype IllegalArgument = UnknownMessageType(messageType: MessageType)

  /** The packet type each message class stands for; the invalid message
      stands for none. */
  function KindType(k: MessageKind): Option<MessageType> {
    match k
    case ConnectMessage => Some(CONNECT)
    case ConnAckMessage => Some(CONNACK)
    case PublishMessage => Some(PUBLISH)
    case PubAckMessage => Some(PUBACK)
    case PubRecMessage => Some(PUBREC)
    case PubRelMessage => Some(PUBREL)
    case PubCompMessage => Some(PUBCOMP)
    case SubscribeMessage => Some(SUBSCRIBE)
    case SubAckMessage => Some(SUBACK)
    case UnsubscribeMessage => Some(UNSUBSCRIBE)
    case UnsubAckMessage => Some(UNSUBACK)
    case PingReqMessage => Some(PINGREQ)
    case PingRespMessage => Some(PINGRESP)
    case DisconnectMessage => Some(DISCONNECT)
    case InvalidMessage => None
  }

  /** newMessage: a message of the header's own type carrying that header;
      the two type values without a message class are refused. */
  function NewMessage(h: FixedHeader): (r: Result<Message, IllegalArgument>)
    ensures r.Failure? <==> h.messageType == FORBIDDEN || h.messageType == RESERVED
    ensures r.Failure? ==> r.error == UnknownMessageType(h.messageType)
    ensures r.Success? ==> KindType(r.value.kind) == Some(h.messageType)
    ensures r.Success? ==> r.value.fixedHeader == Some(h)
  {
    match h.messageType
    case CONNECT => Success(Message(ConnectMessage, Some(h)))
    case CONNACK => Success(Message(ConnAckMessage, Some(h)))
    case SUBSCRIBE => Success(Message(SubscribeMessage, Some(h)))
    case SUBACK => Success(Message(SubAckMessage, Some(h)))
    case UNSUBACK => Success(Message(UnsubAckMessage, Some(h)))
    case UNSUBSCRIBE => Success(Message(UnsubscribeMessage, Some(h)))
    case PUBLISH => Success(Message(PublishMessage, Some(h)))
    case PUBACK => Success(Message(PubAckMessage, Some(h)))
    case PUBREC => Success(Message(PubRecMessage, Some(h)))
    case PUBREL => Success(Message(PubRelMessage, Some(h)))
    case PUBCOMP => Success(Message(PubCompMessage, Some(h)))
    case PINGREQ => Success(Message(PingReqMessage, Some(h)))
    case PINGRESP => Success(Message(PingRespMessage, Some(h)))
    case DISCONNECT => Success(Message(DisconnectMessage, Some(h)))
    case _ => Failure(UnknownMessageType(h.messageType))
  }

  /** newInvalidMessage: the invalid message with a null header, whatever
      the cause. */
  function NewInvalidMessage<C>(cause: C): (r: Message)
    ensures r.kind == InvalidMessage && r.fixedHeader == None
  {
    Message(InvalidMessage, None)
  }

  /** Distinct packet types give distinct message classes, and no packet
      type gives the invalid message. */
  lemma NewMessageInjective(h1: FixedHeader, h2: FixedHeader)
    requires NewMessage(h1).Success? && NewMessage(h2).Success?
    ensures NewMessage(h1).value.kind == NewMessage(h2).value.kind <==> h1.messageType == h2.messageType
    ensures NewMessage(h1).value.kind != InvalidMessage
  {
  }

  /** Every message class but the invalid one is built from exactly the
      headers of its type. */
  lemma NewMessageOnto(k: MessageKind, h: FixedHeader)
    requires k != InvalidMessage && KindType(k) == Some(h.messageType)
    ensures NewMessage(h) == Success(Message(k, Some(h)))
  {
  }
}

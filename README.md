# smart-mqtt in Dafny

A model of the core of smart-mqtt, a Java MQTT 3.1.1 broker and client. Each module follows one source file, or a pair.

- **Broker engine** (`MqttSession` with the topic and session registries of `BrokerContextImpl`). It covers:
  - the topic registry, whose topics are created once, each creation announced by TOPIC_CREATE;
  - the session registry (`putIfAbsent`, removal, lookup);
  - subscribe with replace semantics across the two maps (session filter → topic cursors, and topic → session cursor), wildcard subscribe and TOPIC_CREATE listeners;
  - unsubscribe and disconnect;
  - the per-cursor push loop behind a one-permit gate, its acknowledgement continuation, and the retained-message replay.

  The broker's state is a value, `BrokerModel.State`. `BrokerModel` defines every operation as a function on it. The class `Broker.BrokerContext` holds the same state in fields, changes them in place with the source's loops, and each method is proved to end in the state its function gives. `BrokerProperties` proves what the source promises about those functions. `BrokerMirror` proves that the two subscription maps stay in step under every subscribe-side operation and under disconnect with the corrected unsubscribe. It also proves that `unsubscribe` and disconnect as written break that.
- **Topic filters** (`Topic.java`): the tokenizer, with Java `String.split` semantics, and the index-walking match (MQTT 3.1.1 section 4.7), as methods with loop invariants. The lazily parsed `Topic` object is a class (`TopicFilter`).
- **Protocol validators.**
  - `MqttCodecUtil`: topic-name wildcards, packet id, client id by version, and the fixed-header flag reset of MQTT 3.1.1 section 2.2.2.
  - `MqttVersions`: the version table and its two lookups, MQTT 3.1.1 sections 3.1.2.1-3.1.2.2.
  - `ConnectProcessing`: the ordered CONNECT checks, `refreshSession` and `process`.
- **Client** (`MqttClient`): the 32-bit packet-id counter, the queue of tasks run on CONNACK, the response consumers of the QoS 1 and QoS 2 handshakes, and the SUBACK bookkeeping. The socket is an output sequence.
- **Packet-type dispatch** (`MessageFactory`).
- **Packet layout** (`PacketLayout`): the write order, the remaining-length encoding of MQTT 3.1.1 section 2.2.3, and `decodeMessageId`.

Collaborators whose code is not part of this model are parameters, or fixed by an assumption stated here. These are:
- `PersistenceProvider.get` / `getLatestOffset`;
- the retain provider;
- `TopicTokenUtil.match`, `TopicToken.isWildcards` and `MqttUtil.containsTopicWildcards`;
- the `InflightQueue` commit outcome, which is an input of the acknowledgement;
- `MqttProtocolEnum`, `ValidateUtils`, and the UUID generator (a non-blank parameter);
- `MqttCodecUtil.writeFixedHeader` of the common module, whose first byte is taken to follow MQTT 3.1.1 section 2.2 (`PacketLayout.FirstByte`);
- `Token.toString`, taken to print a token as the level it was parsed from (`TopicFilter.TokenText`).

Java object identities become numbers: `SessionId` names a session and `CursorId` names a `TopicSubscriber`. Pool tasks are a multiset, and the semaphore is the boolean `gateFree`.

## Model

| member | source | states |
|---|---|---|
| `MqttVersions.ProtocolByName` | src/main/java/org/smartboot/socket/mqtt/processor/server/ConnectProcessor.java:65 | a protocol is found exactly when some protocol has that name, and the one found has it |
| `MqttVersions.FirstNameDecides` | src/main/java/org/smartboot/socket/mqtt/enums/MqttVersion.java:18-26 | in any table the first entry whose name matches decides: its level gives the version, another level fails without looking further |
| `MqttVersions.UnknownNameFails` | src/main/java/org/smartboot/socket/mqtt/enums/MqttVersion.java:28 | a name no entry has fails with the unknown-protocol error |
| `MqttVersions.FromProtocolNameAndLevelSpec` | src/main/java/org/smartboot/socket/mqtt/enums/MqttVersion.java:17-29 | fromProtocolNameAndLevel returns v iff v has the name and level; a known name with no such level and an unknown name fail with their two reasons |
| `MqttVersions.ByProtocolWithVersionIn` | src/main/java/org/smartboot/socket/mqtt/enums/MqttVersion.java:31-38 | a version found is in the table with both protocol and level; none is found iff no entry has both |
| `MqttVersions.GetByProtocolWithVersionSpec` | src/main/java/org/smartboot/socket/mqtt/enums/MqttVersion.java:31-38 | getByProtocolWithVersion returns v iff v's protocol and level are the ones given |
| `MqttVersions.VersionRoundTrip` | src/main/java/org/smartboot/socket/mqtt/enums/MqttVersion.java:31-46 | each version is found again from its protocol and level, and from its name and level |
| `MqttVersions.VersionTable` | src/main/java/org/smartboot/socket/mqtt/enums/MqttVersion.java:6-15 | MQTT_3_1 has level 3 and MQTT_3_1_1 level 4, with their protocols; 3.1.1's name is "MQTT" |
| `MqttCodecUtil.NoneOccurs` | src/main/java/org/smartboot/socket/mqtt/message/MqttCodecUtil.java:34-39 | the scan succeeds iff none of the characters occurs in the name |
| `MqttCodecUtil.IsValidPublishTopicName` | src/main/java/org/smartboot/socket/mqtt/message/MqttCodecUtil.java:32-40 | valid iff the name contains neither `#` nor `+` |
| `MqttCodecUtil.IsValidMessageId` | src/main/java/org/smartboot/socket/mqtt/message/MqttCodecUtil.java:42-44 | valid iff the id is not 0 |
| `MqttCodecUtil.IsValidClientId` | src/main/java/org/smartboot/socket/mqtt/message/MqttCodecUtil.java:46-57 | 3.1: non-null with length 1..23; 3.1.1: non-null; no version: the IllegalArgumentException |
| `MqttCodecUtil.ResetUnusedFields` | src/main/java/org/smartboot/socket/mqtt/message/MqttCodecUtil.java:59-97 | type and remaining length kept; flag-free types lose dup, qos and retain only when one is set; PUBREL, SUBSCRIBE and UNSUBSCRIBE lose only retain; other types unchanged |
| `MqttCodecUtil.ResetUnusedFieldsIdempotent` | src/main/java/org/smartboot/socket/mqtt/message/MqttCodecUtil.java:71-93 | resetting twice equals resetting once, and a header is left alone iff it has no reserved flag set |
| `TopicFilter.PiecesJoin` | src/main/java/org/smartboot/socket/mqtt/spi/Topic.java:77 | splitting at every `/` and joining again gives the topic back |
| `TopicFilter.DropTrailingEmpty` | src/main/java/org/smartboot/socket/mqtt/spi/Topic.java:77 | the result is a prefix that ends in a non-empty piece, and everything dropped is empty (Java split) |
| `TopicFilter.ParseTopic` | src/main/java/org/smartboot/socket/mqtt/spi/Topic.java:75-119 | the parse loop returns what the segment-by-segment definition gives |
| `TopicFilter.ParseTopicTokens` | src/main/java/org/smartboot/socket/mqtt/spi/Topic.java:79-115 | parsing succeeds iff every segment maps to a token, and the tokens are the leading EMPTY (if the split was empty) then one token per segment |
| `TopicFilter.ParseErrorIsFirst` | src/main/java/org/smartboot/socket/mqtt/spi/Topic.java:99-113 | a ParseException names the first segment that does not parse |
| `TopicFilter.ParsedTokensWellFormed` | src/main/java/org/smartboot/socket/mqtt/spi/Topic.java:91-115 | a parse has at least one token, `#` only last, and literals without `/`, `#` or `+` that are not empty |
| `TopicFilter.WildcardFreeParses` | src/main/java/org/smartboot/socket/mqtt/spi/Topic.java:107-115 | a topic without `#` and `+` always parses, to tokens without wildcards |
| `TopicFilter.ParseSingleLevelExample` | src/main/java/org/smartboot/socket/mqtt/spi/Topic.java:109-110 | "sport/+/player1" parses to sport, SINGLE, player1 |
| `TopicFilter.ParseMultiLevelExample` | src/main/java/org/smartboot/socket/mqtt/spi/Topic.java:99-106 | "sport/#" parses to sport, MULTI |
| `TopicFilter.ParseLeadingSeparatorExample` | src/main/java/org/smartboot/socket/mqtt/spi/Topic.java:93-98 | "/finance" parses to EMPTY, finance |
| `TopicFilter.ParseSeparatorOnlyExample` | src/main/java/org/smartboot/socket/mqtt/spi/Topic.java:79-89 | "/" parses to EMPTY, EMPTY |
| `TopicFilter.ParseEmptyExample` | src/main/java/org/smartboot/socket/mqtt/spi/Topic.java:79-81 | "" parses to one EMPTY |
| `TopicFilter.ParseTrailingSeparatorsExample` | src/main/java/org/smartboot/socket/mqtt/spi/Topic.java:77-89 | "a//" parses to a, EMPTY: split drops both trailing empties and one is added back |
| `TopicFilter.ParseMultiNotLastExample` | src/main/java/org/smartboot/socket/mqtt/spi/Topic.java:101-105 | "sport/#/ranking" fails at segment 1 |
| `TopicFilter.ParseWildcardInNameExample` | src/main/java/org/smartboot/socket/mqtt/spi/Topic.java:107-113 | "sport/tennis#" fails at segment 1 and "sport+" at segment 0 |
| `TopicFilter.MatchTokens` | src/main/java/org/smartboot/socket/mqtt/spi/Topic.java:163-191 | the match loop as written decides AsWrittenMatch |
| `TopicFilter.MatchLevels` | src/main/java/org/smartboot/socket/mqtt/spi/Topic.java:163-191 | the match loop with the level check for `+` decides the section 4.7 rule LevelsMatch |
| `TopicFilter.MatchAsWrittenRelation` | src/main/java/org/smartboot/socket/mqtt/spi/Topic.java:166-190 | the corrected rule implies the written one; the two agree whenever the topic reaches the first `#`, and always without `#` |
| `TopicFilter.MatchCounterexample` | src/main/java/org/smartboot/socket/mqtt/spi/Topic.java:177-184 | topic "a" matches filter "a/+/#" as written but not under the corrected rule |
| `TopicFilter.LiteralFilterMatchesItself` | src/main/java/org/smartboot/socket/mqtt/spi/Topic.java:167-176 | a filter without wildcards matches exactly the topic with its tokens |
| `TopicFilter.MultiMatchesDescendants` | src/main/java/org/smartboot/socket/mqtt/spi/Topic.java:178-180 | prefix + `#` matches the prefix followed by any levels, including none |
| `TopicFilter.SingleNeedsOneLevel` | src/main/java/org/smartboot/socket/mqtt/spi/Topic.java:181-190 | "sport/+" matches "sport/tennis" but neither "sport" nor "sport/tennis/player1" |
| `TopicFilter.NoMultiMatch` | src/main/java/org/smartboot/socket/mqtt/spi/Topic.java:166-190 | without `#` the written match holds iff the token counts are equal and every level is `+` or equal |
| `TopicFilter.MatchExamples` | src/main/java/org/smartboot/socket/mqtt/spi/Topic.java:166-190 | "a/b/c" does not match "a/+"; "/finance" matches "+/+" |
| `TopicFilter.Parsed` | src/main/java/org/smartboot/socket/mqtt/spi/Topic.java:61-73 | tokens exist iff parsing succeeds, and are its result |
| `TopicFilter.Topic.constructor` | src/main/java/org/smartboot/socket/mqtt/spi/Topic.java:30-32 | a topic from a string: not parsed yet, no subscribers |
| `TopicFilter.Topic.FromTokens` | src/main/java/org/smartboot/socket/mqtt/spi/Topic.java:34-39 | a topic from tokens: the tokens joined by `/`, valid |
| `TopicFilter.Topic.Subscribe` | src/main/java/org/smartboot/socket/mqtt/spi/Topic.java:48-50 | adds one client id to the subscribers |
| `TopicFilter.Topic.UnSubscribe` | src/main/java/org/smartboot/socket/mqtt/spi/Topic.java:52-55 | removes one client id; reports whether it was there |
| `TopicFilter.Topic.GetTokens` | src/main/java/org/smartboot/socket/mqtt/spi/Topic.java:61-73 | parses once and caches; valid iff tokens exist |
| `TopicFilter.Topic.IsValid` | src/main/java/org/smartboot/socket/mqtt/spi/Topic.java:148-154 | true iff parsing did not throw |
| `TopicFilter.Topic.IsEmpty` | src/main/java/org/smartboot/socket/mqtt/spi/Topic.java:130-133 | true iff there are no tokens or none parsed; for a string topic, iff parsing threw |
| `TopicFilter.Topic.HeadToken` | src/main/java/org/smartboot/socket/mqtt/spi/Topic.java:121-128 | the first token, none for an empty list; a topic that does not parse has no token list, and the call fails with the null dereference |
| `TopicFilter.Topic.ExceptHeadToken` | src/main/java/org/smartboot/socket/mqtt/spi/Topic.java:138-146 | a new topic of the remaining tokens (none left for an empty list); a topic that does not parse fails with the null dereference |
| `TopicFilter.Topic.Match` | src/main/java/org/smartboot/socket/mqtt/spi/Topic.java:163-191 | both topics parsed on demand. A filter that does not parse fails. A message topic that does not parse matches a filter starting with `#` and fails otherwise. For two parsed topics the corrected match decides |
| `TopicFilter.Topic.Equals` | src/main/java/org/smartboot/socket/mqtt/spi/Topic.java:202-213 | equals: false against null, true against itself, and equal topics have the same parse |
| `TopicFilter.EqualsIsEquivalence` | src/main/java/org/smartboot/socket/mqtt/spi/Topic.java:202-213 | equals is reflexive, symmetric and transitive |
| `TopicFilter.EqualsFinerThanTokens` | src/main/java/org/smartboot/socket/mqtt/spi/Topic.java:202-213 | the strings "a/" and "a//" differ although both parse to a, EMPTY |
| `TopicFilter.EqualsFinerThanMatch` | src/main/java/org/smartboot/socket/mqtt/spi/Topic.java:163-213 | equals is finer than match: the topics "a/" and "a//" are not equal, yet each matches the other as a filter |
| `MessageFactory.NewMessage` | src/main/java/org/smartboot/socket/mqtt/MqttMessageFactory.java:26-67 | each of the 14 types yields the message kind of that type carrying the header unchanged; the two reserved values fail with IllegalArgumentException |
| `MessageFactory.NewMessageInjective` | src/main/java/org/smartboot/socket/mqtt/MqttMessageFactory.java:27-63 | two successful results have the same kind iff the types are the same |
| `MessageFactory.NewMessageOnto` | src/main/java/org/smartboot/socket/mqtt/MqttMessageFactory.java:27-63 | every message kind is produced, from a header of its type |
| `MessageFactory.NewInvalidMessage` | src/main/java/org/smartboot/socket/mqtt/MqttMessageFactory.java:70-73 | an invalid message without a header |
| `PacketLayout.FirstByteFields` | smart-mqtt-common/src/main/java/org/smartboot/mqtt/common/message/MqttMessage.java:48 | the first byte holds type, dup, qos and retain in the bit positions of MQTT 3.1.1 section 2.2 |
| `PacketLayout.EncodeRemainingLength` | smart-mqtt-common/src/main/java/org/smartboot/mqtt/common/message/MqttMessage.java:55 | at least one byte; every byte but the last has the continuation bit |
| `PacketLayout.RemainingLengthRoundTrip` | smart-mqtt-common/src/main/java/org/smartboot/mqtt/common/message/MqttMessage.java:52-55 | decoding an encoded length, whatever follows, gives the length and the bytes used |
| `PacketLayout.RemainingLengthSize` | smart-mqtt-common/src/main/java/org/smartboot/mqtt/common/message/MqttMessage.java:52-55 | 1, 2, 3 or 4 bytes exactly for the ranges of section 2.2.3 |
| `PacketLayout.MqttMessage.constructor` | smart-mqtt-common/src/main/java/org/smartboot/mqtt/common/message/MqttMessage.java:20-30 | the header is set at construction and the payload is the shared empty one |
| `PacketLayout.MqttMessage.WithPayload` | smart-mqtt-common/src/main/java/org/smartboot/mqtt/common/message/MqttMessage.java:28-30 | a message with its own payload and the given header |
| `PacketLayout.MqttMessage.Write` | smart-mqtt-common/src/main/java/org/smartboot/mqtt/common/message/MqttMessage.java:47-62 | appends fixed header, remaining length of variable header plus payload, variable header, payload |
| `PacketLayout.PacketLayoutRecovered` | smart-mqtt-common/src/main/java/org/smartboot/mqtt/common/message/MqttMessage.java:47-62 | a written packet is taken apart again: its length field counts exactly the bytes after it, which are variable header then payload |
| `PacketLayout.MsbLsb` | smart-mqtt-common/src/main/java/org/smartboot/mqtt/common/message/MqttMessage.java:72 | a two-byte integer is below 65536 |
| `PacketLayout.DecodeMessageId` | smart-mqtt-common/src/main/java/org/smartboot/mqtt/common/message/MqttMessage.java:71-77 | reads two bytes; 0 is a DecoderException, any other id is returned unchanged; fewer than two bytes is an underflow |
| `PacketLayout.EncodeMessageId` | smart-mqtt-common/src/main/java/org/smartboot/mqtt/common/message/MqttMessage.java:72 | the two bytes that read back as the id |
| `ConnectProcessing.CheckWith` | src/main/java/org/smartboot/socket/mqtt/processor/server/ConnectProcessor.java:61-105 | checks in order, the first failure decides: unknown name and a set reserved flag close with no CONNACK, unknown level sends 0x01, a 3.1 id over 23 characters and a failed last check send 0x02; passing needs every check, and the version found has the request's name and level |
| `ConnectProcessing.SessionCheckInverted` | src/main/java/org/smartboot/socket/mqtt/processor/server/ConnectProcessor.java:97-104 | as written, cleanSession 0 with id "sensor-1" is refused and with a blank id accepted; corrected, the other way round |
| `ConnectProcessing.CheckMessagePassed` | src/main/java/org/smartboot/socket/mqtt/processor/server/ConnectProcessor.java:85-104 | a CONNECT that passes has reserved flag 0, a 3.1 id valid for the codec, and a non-blank id when cleanSession is 0 |
| `ConnectProcessing.RefreshSession` | src/main/java/org/smartboot/socket/mqtt/processor/server/ConnectProcessor.java:107-133 | final id: generated for clean + blank, else the given one; the session is registered under it; only a persistent CONNECT closes the old session; no other session's id or CONNACKs change |
| `ConnectProcessing.Process` | src/main/java/org/smartboot/socket/mqtt/processor/server/ConnectProcessor.java:39-59 | with the corrected last check: refused, registry unchanged, session closed, the check's CONNACK if any, other sessions untouched; passed, refreshed (the old session closed only by a persistent CONNECT, other ids kept), the accepted session left open unless it is that old session, and answered with CONNACK accepted, session present |
| `Client.Wrap32` | smart-mqtt-client/src/main/java/org/smartboot/mqtt/client/MqttClient.java:258-260 | 32-bit wrap-around: in range unchanged, max + 1 becomes min |
| `Client.PacketIdsSequential` | smart-mqtt-client/src/main/java/org/smartboot/mqtt/client/MqttClient.java:55 | the n-th id is n + 1 and each id is one more than the previous, below the largest int |
| `Client.PacketIdWraps` | smart-mqtt-client/src/main/java/org/smartboot/mqtt/client/MqttClient.java:259 | after the largest int the counter wraps to the smallest |
| `Client.Subscriptions` | smart-mqtt-client/src/main/java/org/smartboot/mqtt/client/MqttClient.java:185-189 | one subscription per topic, with the QoS at the same index; more topics than QoS levels is the ArrayIndexOutOfBoundsException at index \|qos\| |
| `Client.BuildSubscriptions` | smart-mqtt-client/src/main/java/org/smartboot/mqtt/client/MqttClient.java:185-188 | the builder loop collects exactly what Subscriptions gives, failing at the first topic without a QoS |
| `Client.RunTasksAppend` | smart-mqtt-client/src/main/java/org/smartboot/mqtt/client/MqttClient.java:100-103 | running a queue is running its parts in order (FIFO); when the first part throws, the second stays queued behind what it left |
| `Client.RunTasksLeavesTail` | smart-mqtt-client/src/main/java/org/smartboot/mqtt/client/MqttClient.java:100-103 | the tasks left after a throw are the queue's tail behind the task that threw |
| `Client.MinQoS` | smart-mqtt-client/src/main/java/org/smartboot/mqtt/client/MqttClient.java:194 | the lower of the two levels |
| `Client.RecordSubAckEvents` | smart-mqtt-client/src/main/java/org/smartboot/mqtt/client/MqttClient.java:193-195 | the topic listener hears every filter in order: FAILURE for a refused one, else the recorded QoS |
| `Client.RecordSubAckRecords` | smart-mqtt-client/src/main/java/org/smartboot/mqtt/client/MqttClient.java:196-198 | each granted filter is stored with min(requested, granted); refused and other filters keep their entries |
| `Client.SubAckGrantedIgnored` | smart-mqtt-client/src/main/java/org/smartboot/mqtt/client/MqttClient.java:194 | as written a QoS 2 request granted QoS 0 is recorded as QoS 2; corrected, as QoS 0 |
| `Client.RecordSubAckAgrees` | smart-mqtt-client/src/main/java/org/smartboot/mqtt/client/MqttClient.java:192-199 | on a SUBACK granting every filter its requested QoS, the consumer as written and the corrected one record the same |
| `Client.NotifyResponseAsWrittenAgrees` | smart-mqtt-client/src/main/java/org/smartboot/mqtt/client/MqttClient.java:190-207 | notifyResponse as written and corrected agree on every response except a SUBACK whose codes differ from the requested QoS levels |
| `Client.SubAckCountIgnored` | smart-mqtt-client/src/main/java/org/smartboot/mqtt/client/MqttClient.java:190-200 | as written a SUBACK with no codes is taken as granting the requested QoS; corrected, it is refused |
| `Client.Qos0Publish` | smart-mqtt-client/src/main/java/org/smartboot/mqtt/client/MqttClient.java:226-256 | QoS 0: one PUBLISH with no packet id, no consumer, counter unchanged |
| `Client.Qos1Handshake` | smart-mqtt-client/src/main/java/org/smartboot/mqtt/client/MqttClient.java:232-239 | QoS 1: PUBACK removes the consumer and hands the id to the callback; PUBREC or PUBCOMP is an invalid message type |
| `Client.Qos2Handshake` | smart-mqtt-client/src/main/java/org/smartboot/mqtt/client/MqttClient.java:240-251 | QoS 2: PUBREC swaps in a PUBCOMP consumer and writes PUBREL with the id; PUBCOMP delivers the id and stays registered |
| `Client.NoConsumerFails` | smart-mqtt-client/src/main/java/org/smartboot/mqtt/client/MqttClient.java:204-207 | a response with no registered consumer fails (the null dereference) |
| `Client.QueuedPublishRunsInOrder` | smart-mqtt-client/src/main/java/org/smartboot/mqtt/client/MqttClient.java:218-224 | a publish while disconnected is queued, and an accepted CONNACK runs it after the tasks before it, leaving the queue empty; if one of those throws, it stays queued behind the tasks that did not run |
| `Client.RefusedConnAckRunsNothing` | smart-mqtt-client/src/main/java/org/smartboot/mqtt/client/MqttClient.java:95-107 | a refused CONNACK only reaches the user's consumer |
| `Client.SubscribeOutOfBounds` | smart-mqtt-client/src/main/java/org/smartboot/mqtt/client/MqttClient.java:184-188 | a connected subscribe with more topics than QoS levels throws after taking its packet id: only the counter moves |
| `Client.QueuedBadSubscribeAbortsConnAck` | smart-mqtt-client/src/main/java/org/smartboot/mqtt/client/MqttClient.java:95-107 | such a subscribe, queued, throws inside the CONNACK callback: the publish behind it stays queued, nothing is written, and the CONNACK never reaches the user |
| `Client.MqttClient.constructor` | smart-mqtt-client/src/main/java/org/smartboot/mqtt/client/MqttClient.java:55-66 | counter 1, not connected, nothing queued, registered or sent |
| `Client.MqttClient.NewPacketId` | smart-mqtt-client/src/main/java/org/smartboot/mqtt/client/MqttClient.java:258-260 | returns the counter and advances it with 32-bit wrap-around |
| `Client.MqttClient.Write` | smart-mqtt-client/src/main/java/org/smartboot/mqtt/client/MqttClient.java:152-159 | appends the packet to the output |
| `Client.MqttClient.WriteWithConsumer` | smart-mqtt-client/src/main/java/org/smartboot/mqtt/client/MqttClient.java:161-169 | registers the consumer under the id, then writes |
| `Client.MqttClient.Connect` | smart-mqtt-client/src/main/java/org/smartboot/mqtt/client/MqttClient.java:134-139 | writes CONNECT and sets connected |
| `Client.MqttClient.Subscribe0` | smart-mqtt-client/src/main/java/org/smartboot/mqtt/client/MqttClient.java:184-202 | a fresh id, then the SUBACK consumer under it and the SUBSCRIBE written; a topic without a QoS throws instead, with only the counter moved |
| `Client.MqttClient.Subscribe` | smart-mqtt-client/src/main/java/org/smartboot/mqtt/client/MqttClient.java:175-182 | subscribes now when connected, with its exception, else queues the task |
| `Client.MqttClient.Publish0` | smart-mqtt-client/src/main/java/org/smartboot/mqtt/client/MqttClient.java:226-256 | QoS > 0 takes an id and registers the QoS 1 or QoS 2 consumer; the PUBLISH is written |
| `Client.MqttClient.Publish` | smart-mqtt-client/src/main/java/org/smartboot/mqtt/client/MqttClient.java:218-224 | publishes now when connected, else queues the task |
| `Client.MqttClient.OnConnAck` | smart-mqtt-client/src/main/java/org/smartboot/mqtt/client/MqttClient.java:95-107 | accepted: connected, then the queue polled and run until empty, and the CONNACK goes to the user, as it does when refused; a task that throws ends the callback with the rest queued and no CONNACK to the user |
| `Client.MqttClient.PollTasks` | smart-mqtt-client/src/main/java/org/smartboot/mqtt/client/MqttClient.java:100-103 | the queue is polled until empty or a task throws, its tasks run first to last: the state, exception and remaining queue RunTasks gives |
| `Client.MqttClient.RunOne` | smart-mqtt-client/src/main/java/org/smartboot/mqtt/client/MqttClient.java:102 | one polled task, a deferred subscribe or publish: the state and exception RunTask gives |
| `Client.MqttClient.RecordGranted` | smart-mqtt-client/src/main/java/org/smartboot/mqtt/client/MqttClient.java:190-200 | the SUBACK loop updates subscriptions and listener events as the corrected consumer defines |
| `Client.MqttClient.NotifyResponse` | smart-mqtt-client/src/main/java/org/smartboot/mqtt/client/MqttClient.java:204-207 | runs exactly the consumer registered for the packet id, the SUBACK consumer corrected; on failure nothing changes |
| `BrokerModel.FireTopicCreate` | smart-mqtt-broker/src/main/java/org/smartboot/mqtt/broker/MqttSession.java:147-161 | TOPIC_CREATE listeners change no registry and no topic but the new one |
| `BrokerModel.GetOrCreateTopicSpec` | smart-mqtt-broker/src/main/java/org/smartboot/mqtt/broker/BrokerContextImpl.java:230-237 | an existing name: nothing changes; a wildcard name: refused, nothing inserted; a new name: inserted and logged once; success iff the topic then exists |
| `BrokerModel.Unsubscribe0Spec` | smart-mqtt-broker/src/main/java/org/smartboot/mqtt/broker/MqttSession.java:192-200 | every filter of the session drops its cursor for the topic; the topic drops the session iff a filter held it; other topics and sessions unchanged |
| `BrokerModel.Subscribe0TopicSpec` | smart-mqtt-broker/src/main/java/org/smartboot/mqtt/broker/MqttSession.java:164-190 | a closed session is refused with nothing changed; on success the new cursor starts at latest offset + 1 and the retain provider's oldest offset; exactly one filter holds the topic; the topic maps the session to the cursor; the replay task is scheduled |
| `BrokerModel.SubscribeMatching` | smart-mqtt-broker/src/main/java/org/smartboot/mqtt/broker/MqttSession.java:140-144 | the wildcard loop leaves registries alone, and every topic it does not match unchanged |
| `BrokerModel.Subscribe0FilterSpec` | smart-mqtt-broker/src/main/java/org/smartboot/mqtt/broker/MqttSession.java:130-162 | a literal filter registers no listener; a wildcard one registers a listener iff monitor is set and the walk succeeded |
| `BrokerModel.SubscribeSpec` | smart-mqtt-broker/src/main/java/org/smartboot/mqtt/broker/MqttSession.java:126-128 | subscribe is subscribe0 with monitoring on |
| `BrokerModel.ResubscribeSpec` | smart-mqtt-broker/src/main/java/org/smartboot/mqtt/broker/MqttSession.java:202-204 | resubscribing registers no listener and leaves the session registry alone |
| `BrokerModel.UnsubscribeSpec` | smart-mqtt-broker/src/main/java/org/smartboot/mqtt/broker/MqttSession.java:206-208 | the filter is gone; every topic it held drops the session; other topics, cursors and sessions unchanged |
| `BrokerModel.UnsubscribeAllSpec` | smart-mqtt-broker/src/main/java/org/smartboot/mqtt/broker/MqttSession.java:99 | with the corrected unsubscribe: after unsubscribing every filter the session has none; other sessions unchanged |
| `BrokerModel.AddSessionSpec` | smart-mqtt-broker/src/main/java/org/smartboot/mqtt/broker/BrokerContextImpl.java:225-227 | putIfAbsent: registered iff the client id was free, otherwise nothing changes |
| `BrokerModel.RemoveSessionSpec` | smart-mqtt-broker/src/main/java/org/smartboot/mqtt/broker/BrokerContextImpl.java:254-261 | blank id: none returned and nothing changes; otherwise the mapping is removed and returned |
| `BrokerModel.GetSessionSpec` | smart-mqtt-broker/src/main/java/org/smartboot/mqtt/broker/BrokerContextImpl.java:264-266 | found iff registered, and the registered session |
| `BrokerModel.DisconnectSpec` | smart-mqtt-broker/src/main/java/org/smartboot/mqtt/broker/MqttSession.java:76-112 | with the corrected unsubscribe: ends disconnected; a session already disconnected changes nothing; no session is created or lost |
| `BrokerModel.DisconnectPrefix` | smart-mqtt-broker/src/main/java/org/smartboot/mqtt/broker/MqttSession.java:80-104 | with the corrected unsubscribe: filters emptied; a clean authorized session's stored state gone; its client id unregistered; the registry shrinks when it returns another session |
| `BrokerModel.UnsubscribeAsWrittenSpec` | smart-mqtt-broker/src/main/java/org/smartboot/mqtt/broker/MqttSession.java:206-208 | as written: the filter goes, the session keeps its other filters, and no other session or registry changes |
| `BrokerModel.UnsubscribeAllAsWrittenSpec` | smart-mqtt-broker/src/main/java/org/smartboot/mqtt/broker/MqttSession.java:99 | as written, every filter in turn, in any order: the session ends with no filter, the registry and the set of sessions unchanged |
| `BrokerModel.DisconnectPrefixAsWritten` | smart-mqtt-broker/src/main/java/org/smartboot/mqtt/broker/MqttSession.java:80-104 | the first steps of disconnect as written: no session created or lost; the registry shrinks when it returns a session |
| `BrokerModel.DisconnectAsWrittenSpec` | smart-mqtt-broker/src/main/java/org/smartboot/mqtt/broker/MqttSession.java:76-112 | disconnect as written ends disconnected; a session already disconnected changes nothing |
| `BrokerModel.PushLoop` | smart-mqtt-broker/src/main/java/org/smartboot/mqtt/broker/MqttSession.java:237-269 | each entry sent takes one queue slot and one packet id; the loop ends with the queue full or no entry at the next offset; nothing sent means nothing changed |
| `BrokerModel.SendOne` | smart-mqtt-broker/src/main/java/org/smartboot/mqtt/broker/MqttSession.java:243-247 | one send changes only the cursor's session (and the packets sent) |
| `BrokerModel.BatchPublishSpec` | smart-mqtt-broker/src/main/java/org/smartboot/mqtt/broker/MqttSession.java:223-230 | nothing happens unless the permit is free |
| `BrokerModel.RetainTaskSpec` | smart-mqtt-broker/src/main/java/org/smartboot/mqtt/broker/BrokerContextImpl.java:150-155 | with no retained message or one newer than the subscription, the replay is just batchPublish |
| `BrokerModel.ReadyCursors` | smart-mqtt-broker/src/main/java/org/smartboot/mqtt/broker/BrokerContextImpl.java:280 | exactly the cursors of the topic whose permit is free |
| `BrokerProperties.GetOrCreateTopicOnce` | smart-mqtt-broker/src/main/java/org/smartboot/mqtt/broker/BrokerContextImpl.java:230-237 | TOPIC_CREATE is published at most once per name: the log stays duplicate-free and equal to the topic set, growing iff a topic is created |
| `BrokerProperties.GetOrCreateTopicIdempotent` | smart-mqtt-broker/src/main/java/org/smartboot/mqtt/broker/BrokerContextImpl.java:230-237 | a second call with the same name changes nothing and succeeds |
| `BrokerProperties.Subscribe0KeepsOtherTopics` | smart-mqtt-broker/src/main/java/org/smartboot/mqtt/broker/MqttSession.java:192-200 | subscribing a topic leaves every filter's cursor for other topics as it was |
| `BrokerProperties.SubscribeMatchingKeeps` | smart-mqtt-broker/src/main/java/org/smartboot/mqtt/broker/MqttSession.java:140-144 | the wildcard walk keeps what the filter already held |
| `BrokerProperties.SubscribeMatchingAttaches` | smart-mqtt-broker/src/main/java/org/smartboot/mqtt/broker/MqttSession.java:140-144 | if the walk succeeds, every listed existing topic that matches is held by the filter |
| `BrokerProperties.WildcardSubscribe` | smart-mqtt-broker/src/main/java/org/smartboot/mqtt/broker/MqttSession.java:139-161 | a wildcard filter attaches to every existing matching topic, changes no other, and registers a listener iff monitor |
| `BrokerProperties.LiteralSubscribe` | smart-mqtt-broker/src/main/java/org/smartboot/mqtt/broker/MqttSession.java:133-137 | a literal filter touches only getOrCreateTopic(filter), and both maps then point at the same cursor |
| `BrokerProperties.DisconnectMonotone` | smart-mqtt-broker/src/main/java/org/smartboot/mqtt/broker/MqttSession.java:76-112 | disconnect, with the nested one, only removes filters, stored states and registrations and never clears a disconnect flag |
| `BrokerProperties.DisconnectEffects` | smart-mqtt-broker/src/main/java/org/smartboot/mqtt/broker/MqttSession.java:80-106 | disconnected, no filters, a clean authorized session's stored state removed, a non-blank client id unregistered |
| `BrokerProperties.DisconnectIdempotent` | smart-mqtt-broker/src/main/java/org/smartboot/mqtt/broker/MqttSession.java:77-79 | a second disconnect changes nothing |
| `BrokerProperties.UnsubscribeOneMore` | smart-mqtt-broker/src/main/java/org/smartboot/mqtt/broker/MqttSession.java:99 | unsubscribing one more filter extends the partial effect of disconnect's loop by that filter |
| `BrokerProperties.UnsubscribedAll` | smart-mqtt-broker/src/main/java/org/smartboot/mqtt/broker/MqttSession.java:99 | unsubscribing every filter, in any order, gives UnsubscribeAllSpec |
| `BrokerProperties.Unsubscribe0OneMore` | smart-mqtt-broker/src/main/java/org/smartboot/mqtt/broker/MqttSession.java:207 | each unsubscribe0 in unsubscribe's loop extends its partial effect by one topic |
| `BrokerProperties.Unsubscribed0All` | smart-mqtt-broker/src/main/java/org/smartboot/mqtt/broker/MqttSession.java:206-208 | the loop over the filter's topics, with the filter removed, is UnsubscribeSpec |
| `BrokerProperties.Pushed` | smart-mqtt-broker/src/main/java/org/smartboot/mqtt/broker/MqttSession.java:238-247 | at most n packets, exactly n when the log holds every offset |
| `BrokerProperties.Queued` | smart-mqtt-broker/src/main/java/org/smartboot/mqtt/broker/MqttSession.java:245-246 | at most n queue entries, exactly n when the log holds every offset |
| `BrokerProperties.PushedAt` | smart-mqtt-broker/src/main/java/org/smartboot/mqtt/broker/MqttSession.java:238-246 | the j-th packet carries the entry at offset from + j, packet id pid + j and the cursor's QoS; its queue entry has that id and offset |
| `BrokerProperties.PushLoopConsecutive` | smart-mqtt-broker/src/main/java/org/smartboot/mqtt/broker/MqttSession.java:237-242 | the offsets read are consecutive and all present in the log |
| `BrokerProperties.PushLoopStep` | smart-mqtt-broker/src/main/java/org/smartboot/mqtt/broker/MqttSession.java:242-246 | one turn of the loop: one packet with the next id, one queue entry, one slot less |
| `BrokerProperties.PushLoopPublishes` | smart-mqtt-broker/src/main/java/org/smartboot/mqtt/broker/MqttSession.java:237-269 | the loop sends exactly the consecutive run of log entries from the start offset, with consecutive fresh packet ids |
| `BrokerProperties.PushLoopQueues` | smart-mqtt-broker/src/main/java/org/smartboot/mqtt/broker/MqttSession.java:245-246 | the queue grows by exactly those entries, each with its own log offset |
| `BrokerProperties.Publish0WithPermitHeld` | smart-mqtt-broker/src/main/java/org/smartboot/mqtt/broker/MqttSession.java:270-277 | with the permit held, publish0 is the loop plus the release when nothing was sent; the retry then does nothing |
| `BrokerProperties.BatchPublishTopicSchedulesReady` | smart-mqtt-broker/src/main/java/org/smartboot/mqtt/broker/BrokerContextImpl.java:279-286 | batchPublish(topic) schedules one task for exactly those cursors of the topic with a free permit, and nothing else |
| `BrokerProperties.RetainReplaySendsOne` | smart-mqtt-broker/src/main/java/org/smartboot/mqtt/broker/BrokerContextImpl.java:156-160 | otherwise exactly one retained PUBLISH with the subscriber's QoS and a fresh id, queued at the stored offset, with its callback |
| `BrokerProperties.RetainAckReruns` | smart-mqtt-broker/src/main/java/org/smartboot/mqtt/broker/BrokerContextImpl.java:160-166 | on its ack the retain offset becomes offset + 1, the queue is cleared and the task re-runs |
| `BrokerProperties.PushAckDone` | smart-mqtt-broker/src/main/java/org/smartboot/mqtt/broker/MqttSession.java:247-267 | a finished batch: offset advanced, timestamp set, queue cleared, then the permit released (no next entry) or publish0 resubmitted |
| `BrokerProperties.AckWithoutCallback` | smart-mqtt-broker/src/main/java/org/smartboot/mqtt/broker/MqttSession.java:247 | an ack for a packet id with no callback changes nothing |
| `BrokerProperties.AddSessionKeeps` | smart-mqtt-broker/src/main/java/org/smartboot/mqtt/broker/BrokerContextImpl.java:225-227 | addSession never overwrites a registered client id |
| `BrokerMirror.Unsubscribe0KeepsMirror` | smart-mqtt-broker/src/main/java/org/smartboot/mqtt/broker/MqttSession.java:192-200 | unsubscribe0 keeps each session's two views in step, and the topic no longer maps the session |
| `BrokerMirror.AttachKeepsAttached` | smart-mqtt-broker/src/main/java/org/smartboot/mqtt/broker/MqttSession.java:177-184 | after attaching, every cursor a filter holds is the one the topic maps |
| `BrokerMirror.AttachKeepsNoStray` | smart-mqtt-broker/src/main/java/org/smartboot/mqtt/broker/MqttSession.java:177-184 | after attaching, a topic maps the session only if a filter holds that topic |
| `BrokerMirror.AttachKeepsOneFilter` | smart-mqtt-broker/src/main/java/org/smartboot/mqtt/broker/MqttSession.java:177-184 | after attaching, no two filters hold the same topic |
| `BrokerMirror.AttachKeepsOthers` | smart-mqtt-broker/src/main/java/org/smartboot/mqtt/broker/MqttSession.java:177-184 | attaching leaves other sessions in step |
| `BrokerMirror.Subscribe0TopicKeepsMirror` | smart-mqtt-broker/src/main/java/org/smartboot/mqtt/broker/MqttSession.java:175-184 | subscribe0 keeps each session's two views in step |
| `BrokerMirror.UnsubscribeKeepsMirror` | smart-mqtt-broker/src/main/java/org/smartboot/mqtt/broker/MqttSession.java:206-208 | the corrected unsubscribe keeps each session's two views in step |
| `BrokerMirror.UnsubscribeAsWrittenLeavesStray` | smart-mqtt-broker/src/main/java/org/smartboot/mqtt/broker/MqttSession.java:207 | as written, a topic the removed filter held still maps the session to the old cursor while no filter holds it |
| `BrokerMirror.UnsubscribeDetaches` | smart-mqtt-broker/src/main/java/org/smartboot/mqtt/broker/MqttSession.java:206-208 | after the corrected unsubscribe, no topic the filter held maps the session |
| `BrokerMirror.UnsubscribeAllDetaches` | smart-mqtt-broker/src/main/java/org/smartboot/mqtt/broker/MqttSession.java:99 | with the corrected unsubscribe: after disconnect's unsubscribes, no topic maps the session |
| `BrokerMirror.UnsubscribeAsWrittenOwnTopics` | smart-mqtt-broker/src/main/java/org/smartboot/mqtt/broker/MqttSession.java:206-208 | as written, on a session whose topics each have one holding filter, no topic drops the session, and that property is kept |
| `BrokerMirror.UnsubscribeAllAsWrittenKeepsTopics` | smart-mqtt-broker/src/main/java/org/smartboot/mqtt/broker/MqttSession.java:99 | as written, unsubscribing every filter in any order leaves every topic's map of sessions as it was |
| `BrokerMirror.DisconnectPrefixAsWrittenKeeps` | smart-mqtt-broker/src/main/java/org/smartboot/mqtt/broker/MqttSession.java:80-104 | the first steps of disconnect as written change no topic, empty the filters and hand back no other session |
| `BrokerMirror.DisconnectAsWrittenLeavesStrays` | smart-mqtt-broker/src/main/java/org/smartboot/mqtt/broker/MqttSession.java:76-112 | disconnect as written ends disconnected with no filter, yet every topic still maps the session to its old cursor |
| `BrokerMirror.DisconnectPrefixDetaches` | smart-mqtt-broker/src/main/java/org/smartboot/mqtt/broker/MqttSession.java:80-104 | with the corrected unsubscribe, the first steps of disconnect detach a session in step from every topic |
| `BrokerMirror.Unsubscribe0KeepsMirrored` | smart-mqtt-broker/src/main/java/org/smartboot/mqtt/broker/MqttSession.java:193-199 | unsubscribe0 keeps the whole broker in step |
| `BrokerMirror.Subscribe0TopicKeepsMirrored` | smart-mqtt-broker/src/main/java/org/smartboot/mqtt/broker/MqttSession.java:164-190 | subscribe0 keeps the whole broker in step, and topics map only known sessions |
| `BrokerMirror.FireTopicCreateKeepsMirrored` | smart-mqtt-broker/src/main/java/org/smartboot/mqtt/broker/MqttSession.java:155-159 | delivering TOPIC_CREATE to the listeners keeps the broker in step |
| `BrokerMirror.GetOrCreateTopicKeepsMirrored` | smart-mqtt-broker/src/main/java/org/smartboot/mqtt/broker/BrokerContextImpl.java:231-236 | creating a topic and announcing it keeps the broker in step |
| `BrokerMirror.SubscribeMatchingKeepsMirrored` | smart-mqtt-broker/src/main/java/org/smartboot/mqtt/broker/MqttSession.java:140-144 | the wildcard walk keeps the broker in step |
| `BrokerMirror.Subscribe0FilterKeepsMirrored` | smart-mqtt-broker/src/main/java/org/smartboot/mqtt/broker/MqttSession.java:130-162 | subscribe0(filter) keeps the broker in step |
| `BrokerMirror.ResubscribeKeepsMirrored` | smart-mqtt-broker/src/main/java/org/smartboot/mqtt/broker/MqttSession.java:202-204 | resubscribe keeps the broker in step |
| `BrokerMirror.UnsubscribeKeepsMirrored` | smart-mqtt-broker/src/main/java/org/smartboot/mqtt/broker/MqttSession.java:206-207 | the corrected unsubscribe keeps the broker in step |
| `BrokerMirror.UnsubscribeAllKeepsMirrored` | smart-mqtt-broker/src/main/java/org/smartboot/mqtt/broker/MqttSession.java:99 | with the corrected unsubscribe: unsubscribing every filter keeps the broker in step |
| `BrokerMirror.DisconnectPrefixKeepsMirrored` | smart-mqtt-broker/src/main/java/org/smartboot/mqtt/broker/MqttSession.java:80-105 | with the corrected unsubscribe: stored-state removal, unsubscribes and deregistration keep the broker in step |
| `BrokerMirror.DisconnectKeepsMirrored` | smart-mqtt-broker/src/main/java/org/smartboot/mqtt/broker/MqttSession.java:76-112 | with the corrected unsubscribe: disconnect, with the nested one, keeps the broker in step |
| `Broker.BrokerContext.constructor` | smart-mqtt-broker/src/main/java/org/smartboot/mqtt/broker/BrokerContextImpl.java:58-62 | an empty broker: no topics, sessions, cursors, listeners or tasks |
| `Broker.BrokerContext.OpenSession` | smart-mqtt-broker/src/main/java/org/smartboot/mqtt/broker/MqttSession.java:55-61 | a new session under a fresh id: no filters, an empty in-flight queue of the given size |
| `Broker.BrokerContext.AddSession` | smart-mqtt-broker/src/main/java/org/smartboot/mqtt/broker/BrokerContextImpl.java:225-227 | the state AddSessionSpec gives |
| `Broker.BrokerContext.RemoveSession` | smart-mqtt-broker/src/main/java/org/smartboot/mqtt/broker/BrokerContextImpl.java:254-261 | the state and session RemoveSessionSpec gives |
| `Broker.BrokerContext.GetSession` | smart-mqtt-broker/src/main/java/org/smartboot/mqtt/broker/BrokerContextImpl.java:264-266 | the lookup GetSessionSpec gives, nothing changed |
| `Broker.BrokerContext.GetOrCreateTopic` | smart-mqtt-broker/src/main/java/org/smartboot/mqtt/broker/BrokerContextImpl.java:230-237 | computeIfAbsent, then the loop over the listeners: the state GetOrCreateTopicSpec gives |
| `Broker.BrokerContext.Unsubscribe0` | smart-mqtt-broker/src/main/java/org/smartboot/mqtt/broker/MqttSession.java:192-200 | the loop over the filters in place: the state Unsubscribe0Spec gives |
| `Broker.StripTopic` | smart-mqtt-broker/src/main/java/org/smartboot/mqtt/broker/MqttSession.java:193-199 | every filter loses the topic, and the result says exactly whether one held it |
| `Broker.BrokerContext.Subscribe0Topic` | smart-mqtt-broker/src/main/java/org/smartboot/mqtt/broker/MqttSession.java:164-190 | the guard, unsubscribe0 and the attach: the state and result Subscribe0TopicSpec gives |
| `Broker.BrokerContext.Attach0` | smart-mqtt-broker/src/main/java/org/smartboot/mqtt/broker/MqttSession.java:177-189 | the two map updates, the new cursor and SUBSCRIBE_TOPIC's replay task |
| `Broker.BrokerContext.Subscribe0Filter` | smart-mqtt-broker/src/main/java/org/smartboot/mqtt/broker/MqttSession.java:130-162 | the literal branch, or the loop over the existing topics and the listener: the state Subscribe0FilterSpec gives |
| `Broker.BrokerContext.Subscribe` | smart-mqtt-broker/src/main/java/org/smartboot/mqtt/broker/MqttSession.java:126-128 | the state SubscribeSpec gives |
| `Broker.BrokerContext.Resubscribe` | smart-mqtt-broker/src/main/java/org/smartboot/mqtt/broker/MqttSession.java:202-204 | the loop over the filters: the state ResubscribeSpec gives |
| `Broker.BrokerContext.Unsubscribe` | smart-mqtt-broker/src/main/java/org/smartboot/mqtt/broker/MqttSession.java:206-208 | with the corrected unsubscribe: the loop over the filter's topics: the state UnsubscribeSpec gives |
| `Broker.BrokerContext.UnsubscribeTopics` | smart-mqtt-broker/src/main/java/org/smartboot/mqtt/broker/MqttSession.java:207 | unsubscribe0 on every topic of the filter: Unsubscribed0Some over those topics |
| `Broker.BrokerContext.Disconnect` | smart-mqtt-broker/src/main/java/org/smartboot/mqtt/broker/MqttSession.java:76-112 | with the corrected unsubscribe: the loop over the filters, deregistration, the nested disconnect and the flag: the state DisconnectSpec gives |
| `Broker.BrokerContext.DisconnectFirst` | smart-mqtt-broker/src/main/java/org/smartboot/mqtt/broker/MqttSession.java:80-100 | with the corrected unsubscribe: the stored state dropped for a clean session, every filter unsubscribed, the registry entry removed: the state and removed session DisconnectPrefix gives |
| `Broker.BrokerContext.Send` | smart-mqtt-broker/src/main/java/org/smartboot/mqtt/broker/MqttSession.java:243-247 | one packet, one queue entry, one callback: the state SendOne gives |
| `Broker.BrokerContext.BatchPublish` | smart-mqtt-broker/src/main/java/org/smartboot/mqtt/broker/MqttSession.java:223-230 | tryAcquire, then publish0: the state BatchPublishSpec gives |
| `Broker.BrokerContext.Publish0` | smart-mqtt-broker/src/main/java/org/smartboot/mqtt/broker/MqttSession.java:232-278 | the while loop, the release and the retry: the state Publish0Spec gives |
| `Broker.BrokerContext.PushRun` | smart-mqtt-broker/src/main/java/org/smartboot/mqtt/broker/MqttSession.java:237-269 | the while loop: the packets and count PushLoop gives from the cursor's offset |
| `Broker.BrokerContext.ReplayRetained` | smart-mqtt-broker/src/main/java/org/smartboot/mqtt/broker/BrokerContextImpl.java:146-168 | the retained replay task: the state RetainTaskSpec gives |
| `Broker.BrokerContext.RunTask` | smart-mqtt-broker/src/main/java/org/smartboot/mqtt/broker/BrokerContextImpl.java:280-285 | the push pool runs one pending task: the state RunTaskSpec gives |
| `Broker.BrokerContext.BatchPublishTopic` | smart-mqtt-broker/src/main/java/org/smartboot/mqtt/broker/BrokerContextImpl.java:279-286 | the filter over the topic's cursors: the state BatchPublishTopicSpec gives |
| `Broker.BrokerContext.OnAck` | smart-mqtt-broker/src/main/java/org/smartboot/mqtt/broker/MqttSession.java:247-267 | the callback registered for the packet id runs: the state AckSpec gives |
| `Broker.BrokerContext.OnPushAck` | smart-mqtt-broker/src/main/java/org/smartboot/mqtt/broker/MqttSession.java:248-266 | the push callback: commit, and on the batch's end the release or the next run: the state PushAckSpec gives |
| `Broker.BrokerContext.OnRetainAck` | smart-mqtt-broker/src/main/java/org/smartboot/mqtt/broker/BrokerContextImpl.java:160-166 | the retained callback: commit, clear and the next replay task: the state RetainAckSpec gives |

## Left out

- Configuration, YAML/JSON loading, plugins, server start and stop, the banner, and all logging: this is I/O and reflection.
- Threads, executors and `ConcurrentHashMap` atomicity: the model is sequential. The semaphore is a boolean and the pool is a multiset of pending tasks, each run one at a time.
- The event bus: TOPIC_CREATE is delivered synchronously to the listeners in registration order, and SUBSCRIBE_TOPIC directly schedules the replay task. The SESSION_CREATE, DISCONNECT and PUSH_PUBLISH_MESSAGE events have no subscriber in the model.
- `session.close` at the end of disconnect and the will-message publish: transport and the message bus are not part of this model. The session-state store is reduced to the set of client ids with stored state.
- `InflightQueue.commit`: its outcome (the offset it hands to the consumer, and whether the batch is done) is an input of `BrokerModel.AckSpec`, so no ordering is invented for it. `isFull` is the queue length against its capacity.
- `AbstractSession` is not part of this model. Its packet-id counter is the session's `nextPacketId`, whose first value is a parameter of `OpenSession`, and `publish` becomes the packet log plus a callback under the packet id.
- Iteration order of the hash maps: the wildcard subscribe walks the topics in creation order, `resubscribe` takes its order as a parameter, and disconnect is proved for any order. Disconnect as written takes any filter still present as the next one.
- `BrokerModel.Subscribe0TopicSpec`: the `UnknownSession` and `UnknownTopic` refusals are defensive guards for ids the Java objects cannot lack.
- `Broker.BrokerContext.Unsubscribe`: runs the corrected unsubscribe; the unsubscribe as written is `BrokerModel.UnsubscribeAsWrittenSpec` (see Findings). It requires the filter to be present, where `subscribers.remove(topicFilter).getTopicSubscribers()` throws a NullPointerException; `BrokerModel.UnsubscribeSpec` and `BrokerModel.UnsubscribeAsWrittenSpec` carry the same requires for the same reason.
- `BrokerProperties.Publish0WithPermitHeld`: the retry at the end of publish0 is modelled as written. With one permit and sequential runs it never sends anything, which is what this lemma states; the race it guards against is concurrency.
- `BrokerModel.ReadyCursors`: `topic.getConsumeOffsets().values()` becomes a set of cursor ids. Every cursor id is fresh (`nextCursor`), so two sessions of a topic never share one.
- `Client`: the socket, the heartbeat plugin, the channel group and `close` are left out; a write appends to an output sequence, and a user callback is recorded as an event.
- `ConnectProcessing`: `login` always succeeds, and `ValidateUtils` is assumed to abort after running its callback. The UUID is a non-blank parameter; `MqttContext`'s session map is a class with a map field.
- `PacketLayout`: the variable header and payload writers are byte sequences, and `writeVariableLengthInt` follows section 2.2.3 of MQTT 3.1.1, since its code is not part of this model. `decodeMsbLsb` reads two bytes, most significant first.
- `MqttVersions.ProtocolByName`: `MqttProtocolEnum` is not part of this model; its names are taken to be "MQIsdp" and "MQTT".
- `MqttCodecUtil.IsValidClientId`: a client id's length counts the characters of a Dafny string (Unicode scalar values), where Java's `String.length` counts UTF-16 code units. An id with characters outside the Basic Multilingual Plane is therefore longer in Java than in the model.
- `ConnectProcessing.InvalidClient`: the 23-character limit is counted the same way, in Unicode scalar values rather than UTF-16 code units.
- `TopicFilter.Topic.Match`: on a message topic that does not parse, it follows the corrected walk. A filter of `+` levels followed by `#` therefore fails with the null dereference, where the walk as written (Topic.java:178-179) returns true.
- `Client.MqttClient.NotifyResponse`: runs the corrected SUBACK consumer. That consumer records the granted codes, and refuses a SUBACK without one code per filter with `SubAckCountMismatch`. The consumer as written, which reads no code, is `Client.NotifyResponseAsWrittenSpec` (see Findings).
- `ConnectProcessing.Process`: runs the corrected last check, `CheckMessage`. The check as written is `ConnectProcessing.CheckMessageAsWritten` (see Findings).
- `BrokerModel.DisconnectSpec`: unsubscribes with the corrected unsubscribe; disconnect as written is `BrokerModel.DisconnectAsWrittenSpec` (see Findings). The same holds for `BrokerModel.DisconnectPrefix`, `BrokerModel.UnsubscribeAllSpec` and the methods `Broker.BrokerContext.Disconnect` and `Broker.BrokerContext.DisconnectFirst`.
- `Client.MqttClient.OnConnAck`: an exception thrown by a queued task is returned to the caller; what the network layer does with it is not part of this model.

## Findings

| source | as written | input that shows it | evidently intended | confidence | as-written member | corrected member |
|---|---|---|---|---|---|---|
| src/main/java/org/smartboot/socket/mqtt/spi/Topic.java:177-184 | a `+` filter level is skipped without checking that the topic has a level there, so a later `#` matches | topic `a`, filter `a/+/#`: match returns true | `+` matches exactly one level (MQTT 3.1.1 section 4.7.1.3): false | medium, not executed | `TopicFilter.MatchTokens`, shown by `TopicFilter.MatchCounterexample` | `TopicFilter.MatchLevels` |
| src/main/java/org/smartboot/socket/mqtt/processor/server/ConnectProcessor.java:99 | the check passes when cleanSession is set or the id is blank | CONNECT "MQTT" level 4, cleanSession 0, id `sensor-1`: refused with identifier-rejected; the same with a blank id passes | the comment at lines 97-98 and MQTT 3.1.1 section 3.1.3.1: refuse a blank id when cleanSession is 0 | high, not executed | `ConnectProcessing.CheckMessageAsWritten`, shown by `ConnectProcessing.SessionCheckInverted` | `ConnectProcessing.CheckMessage` |
| smart-mqtt-client/src/main/java/org/smartboot/mqtt/client/MqttClient.java:194 | the SUBACK consumer never reads the SUBACK: the recorded QoS is the minimum of the requested QoS with itself, and the FAILURE tests read the requested QoS too | request `a` at QoS 2, SUBACK grants QoS 0: recorded as QoS 2; a SUBACK with no codes is accepted | min(requested, granted by the SUBACK), one code per filter | medium, not executed | `Client.RecordSubAckAsWritten` and `Client.NotifyResponseAsWrittenSpec`, shown by `Client.SubAckGrantedIgnored` and `Client.SubAckCountIgnored` | `Client.RecordSubAck` and `Client.NotifyResponseSpec` |
| smart-mqtt-broker/src/main/java/org/smartboot/mqtt/broker/MqttSession.java:207 | the filter is removed first, then unsubscribe0 strips each of its topics from the REMAINING filters only, so it finds no holder and leaves the topic mapping the session | a session holding topic `t` under filter `f` unsubscribes `f`: `t` still maps the session to the old cursor and keeps pushing to it | every topic the filter held drops the session | high, not executed | `BrokerModel.UnsubscribeAsWrittenSpec`, shown by `BrokerMirror.UnsubscribeAsWrittenLeavesStray` | `BrokerModel.UnsubscribeSpec` |
| smart-mqtt-broker/src/main/java/org/smartboot/mqtt/broker/MqttSession.java:99 | disconnect unsubscribes each filter with the unsubscribe as written; a topic is held by one filter only, so no unsubscribe finds another holder and no topic drops the session | a session attached to topic `t` through filter `f` disconnects: `t` still maps the disconnected session to its cursor | every topic the session held drops it | high, not executed | `BrokerModel.DisconnectAsWrittenSpec`, shown by `BrokerMirror.DisconnectAsWrittenLeavesStrays` | `BrokerModel.DisconnectSpec` |

# activemq-cpp core, modelled in Dafny

This project models the sequential core of the ActiveMQ C++ client (activemq-cpp and
its older openwire-cpp and amazon code lines) and proves properties of the model:

- **Consumer dispatch queue** (`consumer.dfy`, module `Consumers`). `ActiveMQConsumer`
  holds the FIFO of unconsumed messages, the `closed` flag, the listener, and the
  acknowledge/destroy side effects. It covers:
  - expiry filtering at dispatch and at dequeue;
  - the deadline-driven `dequeue(timeout)` loop;
  - `receive`, `receive(timeout)` and `receiveNoWait`;
  - purge-on-close, which reports the first error only;
  - `setMessageListener` and `onConnectorResourceClosed`.
- **Transaction rollback bookkeeping** (`transaction.dfy`, module `Transactions`).
  `ActiveMQTransaction` holds the rollback map (consumer to the ordered list of its
  transacted messages), the redelivery cap and the running transaction's info.
- **Connection state lifecycle** (`connection_state.dfy`, module `ConnectionStates`). It
  covers:
  - the default session numbered -1;
  - `reset`;
  - the once-only `shutdown`;
  - `checkShutdown`;
  - `toString`.
- **OpenWire marshallers**. There is one module per generated marshaller:
  - `base_command.dfy`, `consumer_id.dfy`, `producer_info.dfy`, `broker_info.dfy` and
    `journal_queue_ack.dfy` (openwire-cpp);
  - `xa_transaction_id.dfy`, `data_array_response.dfy` and `network_bridge_filter.dfy`
    (amazon);
  - `connection_error.dfy` and `session_info.dfy` (activemq-cpp).

  They share these building blocks:
  - `Wire` (`wire.dfy`): the BooleanStream, modelled as a sequence of booleans, and the
    data stream, modelled as a sequence of tokens.
  - `Encoders` (`encoders.dfy`): the string, long, nested, cached, broker-error,
    object-array and byte-sequence helpers. Each is an abstract write/read pair.

  Every marshaller has:
  - spec functions: `Bits1` (the booleans phase 1 writes), `Size1` (its estimate),
    `Toks2` (what phase 2 writes), `Phase2` and `Read`;
  - the lemmas `EstimateExact` (the estimate is the width written), `Balance` (phase 2
    consumes exactly the booleans phase 1 wrote) and `RoundTrip` (unmarshal gives the
    value back and leaves what follows);
  - imperative marshal and unmarshal methods proved against those functions.
- **Blocking byte-array input stream** (`byte_stream.dfy`, module
  `BlockingByteArrayInput`). It covers the buffer, the read position and the closing
  flag, with `read()`, `read(buffer, size)`, `skip`, `setByteArray` and `close`.
- **Ordered set** (`ordered_set.dfy`, module `OrderedSet`). `Set` wraps a std::set,
  modelled as its strictly increasing in-order sequence. `SetIterator` covers `next`,
  `hasNext` and `remove`. Its two cursors are elements, as std::set iterators stay on
  their node while the set changes around them.
- **Small record operations**:
  - `BrokerError` construction and `copyDataStructure` (`broker_error.dfy`);
  - the STOMP CONNECTED frame command (`connected_command.dfy`, module
    `StompConnected`).

Blocking waits are modelled as a finite schedule of wake events supplied by the caller.
Each wait consumes one event, which says what other threads did while the lock was
released and what the clock read then. When the schedule runs out, the result is
`Blocked` (or `BlockStillBlocked`). Exceptions are modelled as error values
(`Outcome` / `Result`).

## Model

| member | source | states |
|---|---|---|
| Wire.ToShort | openwire-cpp/src/marshal/ProducerInfoMarshaller.cpp:64 | the short on the wire lies in the 16-bit signed range, agrees with the count modulo 2^16, and equals it for counts up to 32767 |
| Wire.ToInt | amazon/marshal/XATransactionIdMarshaller.cpp:100-102 | the int on the wire lies in the 32-bit signed range, agrees modulo 2^32, and equals the value when it is already in range |
| Wire.TakeBit | openwire-cpp/src/marshal/BaseCommandMarshaller.cpp:50 | readBoolean fails exactly on an exhausted BooleanStream; otherwise it yields the first boolean and leaves the rest and the data stream untouched |
| Wire.TakeToken | openwire-cpp/src/marshal/BaseCommandMarshaller.cpp:49 | a data-stream read fails exactly on an empty stream; otherwise it yields the first token and leaves the rest and the booleans untouched |
| Wire.BooleanStream.WriteBoolean | openwire-cpp/src/marshal/BaseCommandMarshaller.cpp:62 | writeBoolean appends the boolean |
| Wire.BooleanStream.ReadBoolean | openwire-cpp/src/marshal/BaseCommandMarshaller.cpp:75 | readBoolean pops the front boolean, or fails with Underrun and changes nothing |
| Wire.DataStream.Write | openwire-cpp/src/marshal/BaseCommandMarshaller.cpp:74 | a primitive write appends one token |
| Wire.DataStream.WriteTokens | amazon/marshal/XATransactionIdMarshaller.cpp:103 | a block write appends the tokens in order |
| Wire.DataStream.Read | openwire-cpp/src/marshal/BaseCommandMarshaller.cpp:49 | a primitive read pops the front token, or fails with Underrun and changes nothing |
| Wire.TotalWidthAppend | openwire-cpp/src/marshal/ConsumerIdMarshaller.cpp:73-78 | the width of a concatenation is the sum of the widths, so `rc +=` sums sub-estimates |
| Encoders.StringSizeExact | openwire-cpp/src/marshal/ConsumerIdMarshaller.cpp:74 | the string helper's phase-1 estimate is the width of what its phase 2 writes |
| Encoders.StringBalance | openwire-cpp/src/marshal/ConsumerIdMarshaller.cpp:88 | the string helper's phase 2 consumes exactly the one presence boolean phase 1 wrote and appends the string's tokens |
| Encoders.StringRoundTrip | openwire-cpp/src/marshal/ConsumerIdMarshaller.cpp:60 | tightUnmarshalString gives back the string (or NULL) that the two phases wrote, and leaves what follows |
| Encoders.TightMarshalString1 | openwire-cpp/src/marshal/ConsumerIdMarshaller.cpp:74 | phase 1 of a string appends its presence boolean and returns its estimate |
| Encoders.TightMarshalString2 | openwire-cpp/src/marshal/ConsumerIdMarshaller.cpp:88 | phase 2 of a string agrees with StringPhase2 on the outcome and both streams |
| Encoders.TightUnmarshalString | openwire-cpp/src/marshal/ConsumerIdMarshaller.cpp:60 | reading a string agrees with ReadString on the value and both streams |
| Encoders.LongSizeExact | openwire-cpp/src/marshal/ConsumerIdMarshaller.cpp:75 | the long helper's estimate is the width it writes (zero for a zero long) |
| Encoders.LongBalance | openwire-cpp/src/marshal/ConsumerIdMarshaller.cpp:89 | the long helper's phase 2 consumes exactly its one boolean |
| Encoders.LongRoundTrip | openwire-cpp/src/marshal/ConsumerIdMarshaller.cpp:61 | tightUnmarshalLong gives back the long the two phases wrote |
| Encoders.TightMarshalLong1 | openwire-cpp/src/marshal/ConsumerIdMarshaller.cpp:75 | phase 1 of a long appends its boolean and returns its estimate |
| Encoders.TightMarshalLong2 | openwire-cpp/src/marshal/ConsumerIdMarshaller.cpp:89 | phase 2 of a long agrees with LongPhase2 on the outcome and both streams |
| Encoders.TightUnmarshalLong | openwire-cpp/src/marshal/ConsumerIdMarshaller.cpp:61 | reading a long agrees with ReadLong on the value and both streams |
| Encoders.RefSizeExact | openwire-cpp/src/marshal/ProducerInfoMarshaller.cpp:85 | a cached or nested object's estimate is the width of its type byte and body, or 0 for NULL |
| Encoders.RefBalance | openwire-cpp/src/marshal/ProducerInfoMarshaller.cpp:99 | a cached or nested object's phase 2 consumes exactly its presence boolean |
| Encoders.RefRoundTrip | openwire-cpp/src/marshal/ProducerInfoMarshaller.cpp:60 | reading a cached or nested object gives back the object (or NULL) that was written, of the same kind |
| Encoders.TightMarshalRef1 | openwire-cpp/src/marshal/JournalQueueAckMarshaller.cpp:73 | phase 1 of an object appends its presence boolean and returns its estimate |
| Encoders.TightMarshalRef2 | openwire-cpp/src/marshal/JournalQueueAckMarshaller.cpp:86 | phase 2 of an object agrees with RefPhase2 |
| Encoders.TightUnmarshalRef | openwire-cpp/src/marshal/JournalQueueAckMarshaller.cpp:60 | reading an object agrees with ReadRef |
| Encoders.ElementsSizeExact | openwire-cpp/src/marshal/ProducerInfoMarshaller.cpp:87 | the estimate of an array's elements is the width of their tokens |
| Encoders.ArraySizeExact | openwire-cpp/src/marshal/ProducerInfoMarshaller.cpp:87 | an object array's estimate (short count plus elements, or 0 for NULL) is the width written |
| Encoders.ArrayBalance | openwire-cpp/src/marshal/ProducerInfoMarshaller.cpp:101 | an object array's phase 2 consumes exactly its presence boolean and one boolean per element |
| Encoders.ReadElementsRoundTrip | openwire-cpp/src/marshal/ProducerInfoMarshaller.cpp:66-68 | the `for i < size` loop reads back the written elements in order |
| Encoders.ArrayRoundTrip | openwire-cpp/src/marshal/ProducerInfoMarshaller.cpp:63-73 | a false presence bit reads back NULL; otherwise a short count and that many nested elements are read, in order |
| Encoders.CountedRoundTrip | amazon/marshal/DataArrayResponseMarshaller.cpp:70-73 | a short count followed by the elements reads back the elements |
| Encoders.TightMarshalObjectArray1 | openwire-cpp/src/marshal/ProducerInfoMarshaller.cpp:87 | phase 1 of an object array appends its booleans and returns its estimate |
| Encoders.TightMarshalObjectArray2 | openwire-cpp/src/marshal/ProducerInfoMarshaller.cpp:101 | phase 2 of an object array agrees with ArrayPhase2 |
| Encoders.TightUnmarshalObjectArray | openwire-cpp/src/marshal/ProducerInfoMarshaller.cpp:63-73 | the inline unmarshal loop agrees with ReadArray on the value and both streams |
| Encoders.ByteToks | amazon/marshal/XATransactionIdMarshaller.cpp:103 | a byte block is one token per byte, in order, one byte wide each |
| Encoders.ReadBytesRoundTrip | amazon/marshal/XATransactionIdMarshaller.cpp:69 | reading `n` bytes gives back the `n` bytes written |
| Encoders.TightUnmarshalByteSequence | amazon/marshal/XATransactionIdMarshaller.cpp:69 | unmarshalByteSequence agrees with ReadByteSequence: a false boolean gives the empty sequence; otherwise an int length and that many bytes |
| Encoders.LooseRefRoundTrip | activemq-cpp/src/main/activemq/wireformat/openwire/marshal/generated/SessionInfoMarshaller.cpp:112-113 | the loose reader gives back the object the loose writer wrote (inline presence boolean, no BooleanStream) |
| Encoders.LooseMarshalRef | activemq-cpp/src/main/activemq/wireformat/openwire/marshal/generated/SessionInfoMarshaller.cpp:128 | loose writing appends the object's loose tokens |
| Encoders.LooseUnmarshalRef | activemq-cpp/src/main/activemq/wireformat/openwire/marshal/generated/SessionInfoMarshaller.cpp:112-113 | loose reading agrees with LooseReadRef |
| BaseCommandMarshaller.BaseCommand.constructor | openwire-cpp/src/marshal/BaseCommandMarshaller.cpp:44-50 | a new command has commandId 0 and responseRequired false |
| BaseCommandMarshaller.EstimateAsWrittenShort | openwire-cpp/src/marshal/BaseCommandMarshaller.cpp:64 | the as-written estimate (base plus 1) is three bytes short of the 4-byte int marshal2 writes |
| BaseCommandMarshaller.EstimateExact | openwire-cpp/src/marshal/BaseCommandMarshaller.cpp:58-77 | the corrected estimate is exactly the width marshal2 writes |
| BaseCommandMarshaller.Balance | openwire-cpp/src/marshal/BaseCommandMarshaller.cpp:74-75 | marshal2 writes commandId and consumes exactly the one boolean marshal1 wrote |
| BaseCommandMarshaller.RoundTrip | openwire-cpp/src/marshal/BaseCommandMarshaller.cpp:49-50 | unmarshal reads commandId from the data stream, then responseRequired from the BooleanStream, and recovers both |
| BaseCommandMarshaller.Marshal1AsWritten | openwire-cpp/src/marshal/BaseCommandMarshaller.cpp:58-65 | marshal1 as written: appends responseRequired and returns 1 |
| BaseCommandMarshaller.Marshal1 | openwire-cpp/src/marshal/BaseCommandMarshaller.cpp:58-65 | the corrected marshal1: appends responseRequired and returns the exact estimate |
| BaseCommandMarshaller.Marshal2 | openwire-cpp/src/marshal/BaseCommandMarshaller.cpp:70-77 | marshal2 agrees with Phase2 on the outcome and both streams |
| BaseCommandMarshaller.Unmarshal | openwire-cpp/src/marshal/BaseCommandMarshaller.cpp:44-52 | unmarshal agrees with Read on the fields set, the streams left and every failure |
| BaseCommandMarshaller.LooseRoundTrip | activemq-cpp/src/main/activemq/connector/openwire/marshal/v2/ConnectionErrorMarshaller.cpp:108 | the loose base part (commandId, inline responseRequired) reads back what was written |
| BaseCommandMarshaller.LooseMarshal | activemq-cpp/src/main/activemq/connector/openwire/marshal/v2/ConnectionErrorMarshaller.cpp:128 | loose marshalling of the base appends its loose tokens |
| BaseCommandMarshaller.LooseUnmarshal | activemq-cpp/src/main/activemq/connector/openwire/marshal/v2/ConnectionErrorMarshaller.cpp:108 | loose unmarshalling of the base agrees with LooseRead |
| ConsumerIdMarshaller.ConsumerId.constructor | openwire-cpp/src/marshal/ConsumerIdMarshaller.cpp:42-45 | a new ConsumerId has NULL connectionId and zero sessionId and value |
| ConsumerIdMarshaller.CreateObject | openwire-cpp/src/marshal/ConsumerIdMarshaller.cpp:42-45 | createObject returns a fresh, default ConsumerId |
| ConsumerIdMarshaller.DataStructureType | openwire-cpp/src/marshal/ConsumerIdMarshaller.cpp:47-50 | the type tag is one byte |
| ConsumerIdMarshaller.EstimateExact | openwire-cpp/src/marshal/ConsumerIdMarshaller.cpp:73-78 | the estimate (string plus two longs, plus 0) is the width marshal2 writes |
| ConsumerIdMarshaller.Balance | openwire-cpp/src/marshal/ConsumerIdMarshaller.cpp:85-90 | marshal2 visits connectionId, sessionId, value in marshal1's order and consumes exactly its booleans |
| ConsumerIdMarshaller.RoundTrip | openwire-cpp/src/marshal/ConsumerIdMarshaller.cpp:57-62 | unmarshal recovers connectionId, sessionId and value and leaves what follows |
| ConsumerIdMarshaller.Marshal1 | openwire-cpp/src/marshal/ConsumerIdMarshaller.cpp:70-79 | marshal1 appends Bits1 and returns Size1 |
| ConsumerIdMarshaller.Marshal2 | openwire-cpp/src/marshal/ConsumerIdMarshaller.cpp:84-92 | marshal2 agrees with Phase2 |
| ConsumerIdMarshaller.Unmarshal | openwire-cpp/src/marshal/ConsumerIdMarshaller.cpp:55-64 | unmarshal agrees with Read on the fields set, the streams left and every failure |
| ProducerInfoMarshaller.ProducerInfo.constructor | openwire-cpp/src/marshal/ProducerInfoMarshaller.cpp:42-45 | a new ProducerInfo has a default header and NULL ids and path |
| ProducerInfoMarshaller.CreateObject | openwire-cpp/src/marshal/ProducerInfoMarshaller.cpp:42-45 | a fresh, default ProducerInfo |
| ProducerInfoMarshaller.DataStructureType | openwire-cpp/src/marshal/ProducerInfoMarshaller.cpp:47-50 | the type tag is one byte |
| ProducerInfoMarshaller.EstimateExact | openwire-cpp/src/marshal/ProducerInfoMarshaller.cpp:84-89 | the estimate sums the base, the two cached objects and the array, and equals the width marshal2 writes |
| ProducerInfoMarshaller.EstimateAsWrittenShort | openwire-cpp/src/marshal/ProducerInfoMarshaller.cpp:84-89 | the estimate as written, on the base's plus 1, is three bytes short of the width marshal2 writes |
| ProducerInfoMarshaller.Balance | openwire-cpp/src/marshal/ProducerInfoMarshaller.cpp:96-101 | marshal2 visits the fields in marshal1's order and consumes exactly its booleans |
| ProducerInfoMarshaller.RoundTrip | openwire-cpp/src/marshal/ProducerInfoMarshaller.cpp:57-73 | unmarshal recovers the base fields, producerId, destination and brokerPath (NULL or the elements in order) |
| ProducerInfoMarshaller.Marshal1 | openwire-cpp/src/marshal/ProducerInfoMarshaller.cpp:81-90 | marshal1 appends Bits1 and returns Size1 |
| ProducerInfoMarshaller.Marshal2 | openwire-cpp/src/marshal/ProducerInfoMarshaller.cpp:95-103 | marshal2 agrees with Phase2 |
| ProducerInfoMarshaller.Unmarshal | openwire-cpp/src/marshal/ProducerInfoMarshaller.cpp:55-75 | unmarshal agrees with Read |
| BrokerInfoMarshaller.BrokerInfo.constructor | openwire-cpp/src/marshal/BrokerInfoMarshaller.cpp:42-45 | a new BrokerInfo has a default header, NULL references and false flags |
| BrokerInfoMarshaller.CreateObject | openwire-cpp/src/marshal/BrokerInfoMarshaller.cpp:42-45 | a fresh, default BrokerInfo |
| BrokerInfoMarshaller.DataStructureType | openwire-cpp/src/marshal/BrokerInfoMarshaller.cpp:47-50 | the type tag is one byte |
| BrokerInfoMarshaller.FlagsPhase2 | openwire-cpp/src/marshal/BrokerInfoMarshaller.cpp:111-113 | marshal2's three readBoolean calls fail exactly when fewer than three booleans remain, and write nothing |
| BrokerInfoMarshaller.EstimateExact | openwire-cpp/src/marshal/BrokerInfoMarshaller.cpp:88-97 | the estimate is the width marshal2 writes; the three flags add nothing to it |
| BrokerInfoMarshaller.EstimateAsWrittenShort | openwire-cpp/src/marshal/BrokerInfoMarshaller.cpp:88-97 | the estimate as written, on the base's plus 1, is three bytes short of the width marshal2 writes |
| BrokerInfoMarshaller.Balance | openwire-cpp/src/marshal/BrokerInfoMarshaller.cpp:104-113 | marshal2 visits marshal1's order and consumes exactly its booleans, the three flags included |
| BrokerInfoMarshaller.RoundTrip | openwire-cpp/src/marshal/BrokerInfoMarshaller.cpp:57-77 | unmarshal recovers every field, including slave, master and faultTolerant from the BooleanStream |
| BrokerInfoMarshaller.FieldsRoundTrip | openwire-cpp/src/marshal/BrokerInfoMarshaller.cpp:60-77 | the fields after the base part read back in order from what the phases wrote |
| BrokerInfoMarshaller.Marshal1 | openwire-cpp/src/marshal/BrokerInfoMarshaller.cpp:85-98 | marshal1 appends Bits1 and returns Size1 |
| BrokerInfoMarshaller.MarshalFlags1 | openwire-cpp/src/marshal/BrokerInfoMarshaller.cpp:93-95 | the three flags are appended as booleans, in order |
| BrokerInfoMarshaller.Marshal2 | openwire-cpp/src/marshal/BrokerInfoMarshaller.cpp:103-115 | marshal2 agrees with Phase2 |
| BrokerInfoMarshaller.Unmarshal | openwire-cpp/src/marshal/BrokerInfoMarshaller.cpp:55-79 | unmarshal agrees with Read |
| BrokerInfoMarshaller.UnmarshalFields | openwire-cpp/src/marshal/BrokerInfoMarshaller.cpp:60-77 | the reads after the base part agree with ReadFields |
| JournalQueueAckMarshaller.JournalQueueAck.constructor | openwire-cpp/src/marshal/JournalQueueAckMarshaller.cpp:42-45 | a new JournalQueueAck has NULL destination and messageAck |
| JournalQueueAckMarshaller.CreateObject | openwire-cpp/src/marshal/JournalQueueAckMarshaller.cpp:42-45 | createObject yields a fresh, default JournalQueueAck |
| JournalQueueAckMarshaller.DataStructureType | openwire-cpp/src/marshal/JournalQueueAckMarshaller.cpp:47-50 | the type tag is one byte |
| JournalQueueAckMarshaller.EstimateExact | openwire-cpp/src/marshal/JournalQueueAckMarshaller.cpp:72-76 | the estimate (the two nested estimates) is the width marshal2 writes |
| JournalQueueAckMarshaller.Balance | openwire-cpp/src/marshal/JournalQueueAckMarshaller.cpp:83-87 | marshal2 visits destination, then messageAck, consuming exactly marshal1's booleans |
| JournalQueueAckMarshaller.RoundTrip | openwire-cpp/src/marshal/JournalQueueAckMarshaller.cpp:57-61 | unmarshal recovers both nested objects |
| JournalQueueAckMarshaller.Marshal1 | openwire-cpp/src/marshal/JournalQueueAckMarshaller.cpp:69-77 | marshal1 appends Bits1 and returns Size1 |
| JournalQueueAckMarshaller.Marshal2 | openwire-cpp/src/marshal/JournalQueueAckMarshaller.cpp:82-89 | marshal2 agrees with Phase2 |
| JournalQueueAckMarshaller.Unmarshal | openwire-cpp/src/marshal/JournalQueueAckMarshaller.cpp:55-63 | unmarshal agrees with Read |
| XATransactionIdMarshaller.XATransactionId.constructor | amazon/marshal/XATransactionIdMarshaller.cpp:49-52 | a new XATransactionId has formatId 0 and empty sequences |
| XATransactionIdMarshaller.CreateCommand | amazon/marshal/XATransactionIdMarshaller.cpp:49-52 | createCommand yields a fresh, default XATransactionId |
| XATransactionIdMarshaller.DataStructureType | amazon/marshal/XATransactionIdMarshaller.cpp:54-57 | the type tag is one byte |
| XATransactionIdMarshaller.BytesBits | amazon/marshal/XATransactionIdMarshaller.cpp:82 | the presence boolean is true exactly for a non-empty sequence |
| XATransactionIdMarshaller.BytesToks | amazon/marshal/XATransactionIdMarshaller.cpp:101-104 | an empty sequence puts nothing on the data stream; a non-empty one puts its int length, then its bytes |
| XATransactionIdMarshaller.BytesSizeExact | amazon/marshal/XATransactionIdMarshaller.cpp:83 | a sequence adds 0 when empty, otherwise size + 4, which is the width marshal2 writes for it |
| XATransactionIdMarshaller.BytesPhase2 | amazon/marshal/XATransactionIdMarshaller.cpp:101-104 | a false boolean writes nothing; a true one writes the length and the bytes; a missing boolean fails |
| XATransactionIdMarshaller.BytesBalance | amazon/marshal/XATransactionIdMarshaller.cpp:82-84 | one sequence's phase 2 consumes exactly the boolean phase 1 wrote for it |
| XATransactionIdMarshaller.BytesRoundTrip | amazon/marshal/XATransactionIdMarshaller.cpp:69-70 | the byte-sequence reader gives back a sequence of at most INT_MAX bytes |
| XATransactionIdMarshaller.EstimateExact | amazon/marshal/XATransactionIdMarshaller.cpp:81-87 | the estimate (4 for formatId, plus size + 4 per non-empty sequence) is the width marshal2 writes |
| XATransactionIdMarshaller.Balance | amazon/marshal/XATransactionIdMarshaller.cpp:100-108 | marshal2 consumes exactly the two booleans marshal1 wrote, in order |
| XATransactionIdMarshaller.RoundTrip | amazon/marshal/XATransactionIdMarshaller.cpp:65-70 | unmarshal recovers formatId and both sequences |
| XATransactionIdMarshaller.Marshal1 | amazon/marshal/XATransactionIdMarshaller.cpp:77-88 | marshal1 appends the two presence booleans and returns Size1 |
| XATransactionIdMarshaller.Marshal2 | amazon/marshal/XATransactionIdMarshaller.cpp:93-109 | marshal2 agrees with Phase2 |
| XATransactionIdMarshaller.MarshalBytes2 | amazon/marshal/XATransactionIdMarshaller.cpp:101-104 | one `if (bs.readBoolean())` block agrees with BytesPhase2 |
| XATransactionIdMarshaller.Unmarshal | amazon/marshal/XATransactionIdMarshaller.cpp:62-72 | unmarshal agrees with Read |
| DataArrayResponseMarshaller.DataArrayResponse.constructor | amazon/marshal/DataArrayResponseMarshaller.cpp:49-52 | a new DataArrayResponse has default Response fields and empty data |
| DataArrayResponseMarshaller.CreateCommand | amazon/marshal/DataArrayResponseMarshaller.cpp:49-52 | createCommand yields a fresh, default DataArrayResponse |
| DataArrayResponseMarshaller.DataStructureType | amazon/marshal/DataArrayResponseMarshaller.cpp:54-57 | the type tag is one byte |
| DataArrayResponseMarshaller.AsArray | amazon/marshal/DataArrayResponseMarshaller.cpp:87 | the helpers see an empty vector as an absent array, and any other vector as itself |
| DataArrayResponseMarshaller.EstimateExact | amazon/marshal/DataArrayResponseMarshaller.cpp:86-89 | the estimate (Response part plus object array) is the width marshal2 writes |
| DataArrayResponseMarshaller.Balance | amazon/marshal/DataArrayResponseMarshaller.cpp:99-102 | marshal2 writes the Response part, then the array, consuming exactly marshal1's booleans |
| DataArrayResponseMarshaller.RoundTrip | amazon/marshal/DataArrayResponseMarshaller.cpp:65-76 | a present array reads back in order; an absent one leaves the object's previous data, since there is no else branch |
| DataArrayResponseMarshaller.RoundTripFresh | amazon/marshal/DataArrayResponseMarshaller.cpp:65-76 | unmarshalled into a new object, the value comes back whole |
| DataArrayResponseMarshaller.Marshal1 | amazon/marshal/DataArrayResponseMarshaller.cpp:82-90 | marshal1 appends Bits1 and returns Size1 |
| DataArrayResponseMarshaller.Marshal2 | amazon/marshal/DataArrayResponseMarshaller.cpp:95-103 | marshal2 agrees with Phase2 |
| DataArrayResponseMarshaller.Unmarshal | amazon/marshal/DataArrayResponseMarshaller.cpp:62-77 | unmarshal agrees with Read from the object's previous data |
| NetworkBridgeFilterMarshaller.NetworkBridgeFilter.constructor | amazon/marshal/NetworkBridgeFilterMarshaller.cpp:49-52 | a new filter has networkTTL 0 and no broker id |
| NetworkBridgeFilterMarshaller.CreateCommand | amazon/marshal/NetworkBridgeFilterMarshaller.cpp:49-52 | createCommand yields a fresh, default filter |
| NetworkBridgeFilterMarshaller.DataStructureType | amazon/marshal/NetworkBridgeFilterMarshaller.cpp:54-57 | the type tag is one byte |
| NetworkBridgeFilterMarshaller.EstimateExact | amazon/marshal/NetworkBridgeFilterMarshaller.cpp:79-82 | the estimate (the cached object's, plus 4) is the width marshal2 writes, with no base part |
| NetworkBridgeFilterMarshaller.Balance | amazon/marshal/NetworkBridgeFilterMarshaller.cpp:93-95 | marshal2 writes networkTTL, then the broker id, consuming exactly marshal1's boolean |
| NetworkBridgeFilterMarshaller.RoundTrip | amazon/marshal/NetworkBridgeFilterMarshaller.cpp:66-68 | unmarshal recovers networkTTL and the broker id |
| NetworkBridgeFilterMarshaller.Marshal1 | amazon/marshal/NetworkBridgeFilterMarshaller.cpp:75-83 | marshal1 appends Bits1 and returns Size1 |
| NetworkBridgeFilterMarshaller.Marshal2 | amazon/marshal/NetworkBridgeFilterMarshaller.cpp:88-96 | marshal2 agrees with Phase2 |
| NetworkBridgeFilterMarshaller.Unmarshal | amazon/marshal/NetworkBridgeFilterMarshaller.cpp:62-70 | unmarshal agrees with Read |
| ConnectionErrorMarshaller.ConnectionError.constructor | activemq-cpp/src/main/activemq/connector/openwire/marshal/v2/ConnectionErrorMarshaller.cpp:39-41 | a new ConnectionError has a default header and no exception or connection id |
| ConnectionErrorMarshaller.CreateObject | activemq-cpp/src/main/activemq/connector/openwire/marshal/v2/ConnectionErrorMarshaller.cpp:39-41 | createObject yields a fresh, default ConnectionError |
| ConnectionErrorMarshaller.GetDataStructureType | activemq-cpp/src/main/activemq/connector/openwire/marshal/v2/ConnectionErrorMarshaller.cpp:44-46 | the type tag is one byte |
| ConnectionErrorMarshaller.EstimateExact | activemq-cpp/src/main/activemq/connector/openwire/marshal/v2/ConnectionErrorMarshaller.cpp:75-79 | the estimate is the sum of the base, broker-error and nested estimates, the width of what tightMarshal2 writes |
| ConnectionErrorMarshaller.Balance | activemq-cpp/src/main/activemq/connector/openwire/marshal/v2/ConnectionErrorMarshaller.cpp:91-96 | tightMarshal2 visits tightMarshal1's order and consumes exactly its booleans |
| ConnectionErrorMarshaller.RoundTrip | activemq-cpp/src/main/activemq/connector/openwire/marshal/v2/ConnectionErrorMarshaller.cpp:53-60 | tightUnmarshal recovers the base fields, the exception and connectionId |
| ConnectionErrorMarshaller.TightMarshal1 | activemq-cpp/src/main/activemq/connector/openwire/marshal/v2/ConnectionErrorMarshaller.cpp:68-84 | tightMarshal1 appends Bits1 and returns Size1 |
| ConnectionErrorMarshaller.TightMarshal2 | activemq-cpp/src/main/activemq/connector/openwire/marshal/v2/ConnectionErrorMarshaller.cpp:87-101 | tightMarshal2 agrees with Phase2 |
| ConnectionErrorMarshaller.TightUnmarshal | activemq-cpp/src/main/activemq/connector/openwire/marshal/v2/ConnectionErrorMarshaller.cpp:49-65 | tightUnmarshal agrees with Read; any failure inside is the failure of the whole call |
| ConnectionErrorMarshaller.LooseRoundTrip | activemq-cpp/src/main/activemq/connector/openwire/marshal/v2/ConnectionErrorMarshaller.cpp:108-114 | looseUnmarshal reads back, in the same order and with no BooleanStream, what looseMarshal wrote |
| ConnectionErrorMarshaller.LooseMarshal | activemq-cpp/src/main/activemq/connector/openwire/marshal/v2/ConnectionErrorMarshaller.cpp:122-136 | looseMarshal appends the base, exception and connectionId tokens |
| ConnectionErrorMarshaller.LooseUnmarshal | activemq-cpp/src/main/activemq/connector/openwire/marshal/v2/ConnectionErrorMarshaller.cpp:104-119 | looseUnmarshal agrees with LooseRead |
| SessionInfoMarshaller.SessionInfo.constructor | activemq-cpp/src/main/activemq/wireformat/openwire/marshal/generated/SessionInfoMarshaller.cpp:44-46 | a new SessionInfo has a default header and no session id |
| SessionInfoMarshaller.CreateObject | activemq-cpp/src/main/activemq/wireformat/openwire/marshal/generated/SessionInfoMarshaller.cpp:44-46 | createObject yields a fresh, default SessionInfo |
| SessionInfoMarshaller.GetDataStructureType | activemq-cpp/src/main/activemq/wireformat/openwire/marshal/generated/SessionInfoMarshaller.cpp:49-51 | the type tag is one byte |
| SessionInfoMarshaller.EstimateExact | activemq-cpp/src/main/activemq/wireformat/openwire/marshal/generated/SessionInfoMarshaller.cpp:78-81 | the estimate (base plus cached object) is the width tightMarshal2 writes |
| SessionInfoMarshaller.Balance | activemq-cpp/src/main/activemq/wireformat/openwire/marshal/generated/SessionInfoMarshaller.cpp:93-97 | tightMarshal2 writes the base, then the cached sessionId, consuming exactly tightMarshal1's booleans |
| SessionInfoMarshaller.RoundTrip | activemq-cpp/src/main/activemq/wireformat/openwire/marshal/generated/SessionInfoMarshaller.cpp:58-63 | tightUnmarshal recovers the base fields and sessionId |
| SessionInfoMarshaller.TightMarshal1 | activemq-cpp/src/main/activemq/wireformat/openwire/marshal/generated/SessionInfoMarshaller.cpp:71-86 | tightMarshal1 appends Bits1 and returns Size1 |
| SessionInfoMarshaller.TightMarshal2 | activemq-cpp/src/main/activemq/wireformat/openwire/marshal/generated/SessionInfoMarshaller.cpp:89-102 | tightMarshal2 agrees with Phase2 |
| SessionInfoMarshaller.TightUnmarshal | activemq-cpp/src/main/activemq/wireformat/openwire/marshal/generated/SessionInfoMarshaller.cpp:54-68 | tightUnmarshal agrees with Read; any failure is the failure of the whole call |
| SessionInfoMarshaller.LooseRoundTrip | activemq-cpp/src/main/activemq/wireformat/openwire/marshal/generated/SessionInfoMarshaller.cpp:109-113 | looseUnmarshal reads back base, then sessionId, from what looseMarshal wrote |
| SessionInfoMarshaller.LooseMarshal | activemq-cpp/src/main/activemq/wireformat/openwire/marshal/generated/SessionInfoMarshaller.cpp:121-133 | looseMarshal appends the base and sessionId tokens |
| SessionInfoMarshaller.LooseUnmarshal | activemq-cpp/src/main/activemq/wireformat/openwire/marshal/generated/SessionInfoMarshaller.cpp:105-118 | looseUnmarshal agrees with LooseRead |
| BrokerErrorCommand.BrokerError.constructor | activemq-cpp/src/main/activemq/commands/BrokerError.cpp:30-31 | a new BrokerError has empty message and exceptionClass, no stack-trace elements and no cause |
| BrokerErrorCommand.BrokerError.CopyDataStructure | activemq-cpp/src/main/activemq/commands/BrokerError.cpp:39-51 | a BrokerError source gives its message, exceptionClass, stack trace and cause; a NULL or foreign source is rejected with a null-pointer error before any field changes; the BaseCommand part is never copied |
| StompConnected.DigitChar | activemq-cpp/src/main/activemq/connector/stomp/commands/ConnectedCommand.h:66 | a digit's character is a decimal digit whose code is the digit's offset from '0' |
| StompConnected.NatToString | activemq-cpp/src/main/activemq/connector/stomp/commands/ConnectedCommand.h:66 | the decimal string of a natural is non-empty, all digits, and has no leading zero |
| StompConnected.IntToString | activemq-cpp/src/main/activemq/connector/stomp/commands/ConnectedCommand.h:66 | the decimal string of an int is non-empty and starts with '-' exactly for a negative int |
| StompConnected.ParseNatToString | activemq-cpp/src/main/activemq/connector/stomp/commands/ConnectedCommand.h:66 | the decimal digits of a natural parse back to it |
| StompConnected.ParseIntToString | activemq-cpp/src/main/activemq/connector/stomp/commands/ConnectedCommand.h:66 | the decimal string of any int parses back to it |
| StompConnected.IntToStringInjective | activemq-cpp/src/main/activemq/connector/stomp/commands/ConnectedCommand.h:66 | different ints have different decimal strings |
| StompConnected.StompFrame.constructor | activemq-cpp/src/main/activemq/connector/stomp/commands/ConnectedCommand.h:38-41 | a new frame has an empty command and no headers |
| StompConnected.StompFrame.Clone | activemq-cpp/src/main/activemq/connector/stomp/commands/ConnectedCommand.h:55 | a frame clone is a fresh frame with the same command and headers |
| StompConnected.Validate | activemq-cpp/src/main/activemq/connector/stomp/commands/ConnectedCommand.h:109-118 | validate holds exactly when the frame's command is CONNECTED |
| StompConnected.Initialize | activemq-cpp/src/main/activemq/connector/stomp/commands/ConnectedCommand.h:97-101 | initialize sets the command to CONNECTED and keeps the headers, so the frame then validates |
| StompConnected.ConnectedCommand.constructor | activemq-cpp/src/main/activemq/connector/stomp/commands/ConnectedCommand.h:38-41 | a default command owns a fresh frame whose command is CONNECTED, with no headers |
| StompConnected.ConnectedCommand.FromFrame | activemq-cpp/src/main/activemq/connector/stomp/commands/ConnectedCommand.h:43-46 | a command over a received frame wraps that frame unchanged; validate's verdict is not acted on |
| StompConnected.ConnectedCommand.GetPropertyValue | activemq-cpp/src/main/activemq/connector/stomp/commands/ConnectedCommand.h:73-77 | a header lookup yields the stored value exactly when the header is present, and NULL otherwise |
| StompConnected.ConnectedCommand.SetPropertyValue | activemq-cpp/src/main/activemq/connector/stomp/commands/ConnectedCommand.h:84-87 | setting a header stores the value under that name, leaves the other headers, and leaves the command unchanged |
| StompConnected.ConnectedCommand.SetCorrelationId | activemq-cpp/src/main/activemq/connector/stomp/commands/ConnectedCommand.h:62-67 | the response-id header holds the decimal string of the id; nothing else changes |
| StompConnected.ConnectedCommand.GetSessionId | activemq-cpp/src/main/activemq/connector/stomp/commands/ConnectedCommand.h:73-77 | getSessionId is the session header's value, or NULL |
| StompConnected.ConnectedCommand.SetSessionId | activemq-cpp/src/main/activemq/connector/stomp/commands/ConnectedCommand.h:83-88 | after setSessionId(s), getSessionId yields s; only the session header changes |
| StompConnected.ConnectedCommand.CloneStompCommand | activemq-cpp/src/main/activemq/connector/stomp/commands/ConnectedCommand.h:54-56 | the clone is a fresh command over a fresh copy of the frame, with equal command and headers |
| StompConnected.CorrelationIdReadsBack | activemq-cpp/src/main/activemq/connector/stomp/commands/ConnectedCommand.h:62-67 | after setCorrelationId(n) the response-id header is present and parses back to n |
| ConnectionStates.SessionState.constructor | activemq-cpp/src/main/activemq/state/ConnectionState.cpp:39-41 | a session state records its id and has not been shut down |
| ConnectionStates.SessionState.Shutdown | activemq-cpp/src/main/activemq/state/ConnectionState.cpp:80 | each session shutdown is counted |
| ConnectionStates.ConnectionState.constructor | activemq-cpp/src/main/activemq/state/ConnectionState.cpp:30-45 | a new state holds exactly one fresh session, keyed (connection id, -1); it has no transactions, temp destinations or pull consumers, is not disposed, and interrupt processing is complete |
| ConnectionStates.ConnectionState.AddSession | activemq-cpp/src/main/activemq/state/ConnectionState.cpp:44 | addSession stores a fresh session state under its id; nothing else changes |
| ConnectionStates.ConnectionState.ToString | activemq-cpp/src/main/activemq/state/ConnectionState.cpp:52-59 | with no info the text is "NULL", otherwise the info's text |
| ConnectionStates.ConnectionState.Reset | activemq-cpp/src/main/activemq/state/ConnectionState.cpp:62-69 | reset replaces the info, empties transactions, sessions and temp destinations, and clears disposed; nothing else changes |
| ConnectionStates.ConnectionState.Shutdown | activemq-cpp/src/main/activemq/state/ConnectionState.cpp:72-83 | afterwards the state is disposed; the first call shuts each session down once, and a later call changes nothing |
| ConnectionStates.ConnectionState.CheckShutdown | activemq-cpp/src/main/activemq/state/ConnectionState.cpp:86-92 | fails with an illegal-state error exactly when the state is disposed, and passes otherwise |
| BlockingByteArrayInput.Apply | src/main/decaf/io/BlockingByteArrayInputStream.cpp:46-81 | during a wait, a spurious wake changes nothing; setByteArray installs the bytes with the position at their start; close empties the buffer and sets closing |
| BlockingByteArrayInput.ReadByte | src/main/decaf/io/BlockingByteArrayInputStream.cpp:84-102 | read() on a closing stream fails; with data left it returns the byte at the position and advances by one; any byte returned is the one just passed; a failure means the stream is closing |
| BlockingByteArrayInput.ReadBlock | src/main/decaf/io/BlockingByteArrayInputStream.cpp:105-133 | the corrected read(buffer, size) copies a prefix of at most size bytes; a count is returned only for all size bytes, on an open stream; a failure means the stream is closing; it never reads past the end |
| BlockingByteArrayInput.ReadBlockAvailable | src/main/decaf/io/BlockingByteArrayInputStream.cpp:112-129 | with at least size bytes left, read(buffer, size) copies them in order, returns size and advances by size |
| BlockingByteArrayInput.ReadBlockAsWritten | src/main/decaf/io/BlockingByteArrayInputStream.cpp:105-133 | the loop as written copies at most size bytes |
| BlockingByteArrayInput.SpuriousWakeReadsPastEnd | src/main/decaf/io/BlockingByteArrayInputStream.cpp:114-121 | as written, a spurious wake during a one-byte read of an empty stream dereferences the end; the corrected loop keeps waiting |
| BlockingByteArrayInput.EmptyRefillReadsPastEnd | src/main/decaf/io/BlockingByteArrayInputStream.cpp:114-121 | as written, a setByteArray with an empty array while the reader waits also dereferences the end |
| BlockingByteArrayInput.AsWrittenAgrees | src/main/decaf/io/BlockingByteArrayInputStream.cpp:105-133 | wherever the as-written loop neither reads past the end nor waits forever, the corrected loop gives the same result |
| BlockingByteArrayInput.SkipCount | src/main/decaf/io/BlockingByteArrayInputStream.cpp:136-149 | skip(num) moves over min(num, bytes left) on an open stream and 0 on a closing one |
| BlockingByteArrayInput.BlockingByteArrayInputStream.constructor | src/main/decaf/io/BlockingByteArrayInputStream.cpp:27-30 | a default stream is empty, positioned at its end, and not closing |
| BlockingByteArrayInput.BlockingByteArrayInputStream.FromArray | src/main/decaf/io/BlockingByteArrayInputStream.cpp:33-39 | a stream over an array holds its first bufferSize bytes, read from the start, not closing |
| BlockingByteArrayInput.BlockingByteArrayInputStream.SetByteArray | src/main/decaf/io/BlockingByteArrayInputStream.cpp:46-65 | the buffer becomes exactly bytes[0..bufferSize), the position its start, and closing is kept |
| BlockingByteArrayInput.BlockingByteArrayInputStream.Close | src/main/decaf/io/BlockingByteArrayInputStream.cpp:68-81 | close sets closing and empties the buffer |
| BlockingByteArrayInput.BlockingByteArrayInputStream.Wait | src/main/decaf/io/BlockingByteArrayInputStream.cpp:95 | one wait applies one wake event |
| BlockingByteArrayInput.BlockingByteArrayInputStream.Read | src/main/decaf/io/BlockingByteArrayInputStream.cpp:84-102 | read() agrees with ReadByte on the result and the new state |
| BlockingByteArrayInput.BlockingByteArrayInputStream.ReadInto | src/main/decaf/io/BlockingByteArrayInputStream.cpp:105-133 | the corrected read(buffer, size) agrees with ReadBlock on the result, the bytes placed in the caller's array (and only there) and the new state |
| BlockingByteArrayInput.BlockingByteArrayInputStream.AwaitByte | src/main/decaf/io/BlockingByteArrayInputStream.cpp:114-118 | the corrected wait before one byte ends with a byte available or the stream closing, or reports the reader still blocked |
| BlockingByteArrayInput.BlockingByteArrayInputStream.Skip | src/main/decaf/io/BlockingByteArrayInputStream.cpp:136-149 | skip returns SkipCount and advances the position by it; nothing else changes |
| OrderedSet.DistinctCardinality | src/main/activemq/util/Set.h:155-157 | the in-order sequence has no duplicates, so its length is the set's size |
| OrderedSet.Insert | src/main/activemq/util/Set.h:163-165 | insert keeps the order, adds the value, and changes nothing when the value is present |
| OrderedSet.Erase | src/main/activemq/util/Set.h:171-173 | erase keeps the order, removes the value, and changes nothing when it is absent |
| OrderedSet.EraseAt | src/main/activemq/util/Set.h:84 | erasing through an iterator removes exactly the element at its position |
| OrderedSet.Successor | src/main/activemq/util/Set.h:69 | `current++` moves to the least element above the current one, or to end() when there is none |
| OrderedSet.First | src/main/activemq/util/Set.h:55 | begin() is the least element, or end() for an empty set |
| OrderedSet.Set.constructor | src/main/activemq/util/Set.h:94 | a new set is empty |
| OrderedSet.Set.FromSet | src/main/activemq/util/Set.h:101-103 | the copy constructor takes source's contents |
| OrderedSet.Set.CopyFrom | src/main/activemq/util/Set.h:122-125 | copy replaces the contents with source's, discarding the previous ones |
| OrderedSet.Set.Clear | src/main/activemq/util/Set.h:130-132 | after clear, isEmpty holds and size is 0 |
| OrderedSet.Set.Contains | src/main/activemq/util/Set.h:139-143 | contains holds exactly for the elements |
| OrderedSet.Set.IsEmpty | src/main/activemq/util/Set.h:148-150 | isEmpty holds exactly when there are no elements |
| OrderedSet.Set.Size | src/main/activemq/util/Set.h:155-157 | size is the number of elements |
| OrderedSet.Set.Add | src/main/activemq/util/Set.h:163-165 | after add(v), contains(v) holds, v is added to the elements, and adding a present value changes nothing |
| OrderedSet.Set.Remove | src/main/activemq/util/Set.h:171-173 | after remove(v), contains(v) is false and every other element is kept |
| OrderedSet.Set.ToArray | src/main/activemq/util/Set.h:178-188 | toArray has size() entries, the elements, in ascending order |
| OrderedSet.Set.Iterator | src/main/activemq/util/Set.h:113-115 | a new iterator stands on the least element, with no previous one, and has every element left to return |
| OrderedSet.SetIterator.constructor | src/main/activemq/util/Set.h:54-58 | current at begin(), previous at end(); every element is left to return |
| OrderedSet.SetIterator.HasNext | src/main/activemq/util/Set.h:72-74 | hasNext holds exactly while some element at or above the cursor is still in the set |
| OrderedSet.SetIterator.Next | src/main/activemq/util/Set.h:61-70 | next at end() fails with NoSuchElement and changes nothing; otherwise it returns the least element left, remembers it, and steps to the element above it in the set as it is now |
| OrderedSet.SetIterator.Remove | src/main/activemq/util/Set.h:76-86 | remove with no remembered element (before any next, or right after a remove) fails with IllegalState; otherwise the element last returned is erased and forgotten, and the cursor and what is left to return are unchanged |
| OrderedSet.IteratorSurvivesAdd | src/main/activemq/util/Set.h:48-49 | over {1, 3}, after next gives 1 and add(0), next gives 3 and remove erases 3: the iterator stays on its element |
| Transactions.RedeliveredAppend | src/main/activemq/core/ActiveMQTransaction.h:191-201 | redelivering a list piecewise is redelivering it whole, for both the redelivered and the dropped part |
| Transactions.RedeliveredPartition | src/main/activemq/core/ActiveMQTransaction.h:191-201 | every message of a list is either redelivered or dropped, never both; the message ids are preserved as a multiset |
| Transactions.DroppedAtCap | src/main/activemq/core/ActiveMQTransaction.h:49-51 | a dropped message came from the list and had reached maxRedeliveries |
| Transactions.RedeliveredWithinCap | src/main/activemq/core/ActiveMQTransaction.h:49-51 | a redelivered message has a count between 1 and maxRedeliveries, and its predecessor (one count lower) was in the list |
| Transactions.Lifetime | src/main/activemq/core/ActiveMQTransaction.h:49-51 | a message survives k rollbacks exactly when k is 0 or its count plus k stays within maxRedeliveries, and then its count has grown by k |
| Transactions.ActiveMQTransaction.constructor | src/main/activemq/core/ActiveMQTransaction.h:95-97 | a new transaction is running, with an empty rollback map and the given cap |
| Transactions.ActiveMQTransaction.AddToTransaction | src/main/activemq/core/ActiveMQTransaction.h:101-108 | the message is appended to the consumer's list; no other list changes |
| Transactions.ActiveMQTransaction.RemoveFromTransaction | src/main/activemq/core/ActiveMQTransaction.h:110-116 | the consumer and its list are removed and returned as discarded, without redelivery |
| Transactions.ActiveMQTransaction.RemoveFromTransactionById | src/main/activemq/core/ActiveMQTransaction.h:118-124 | every consumer with that id leaves the map with its list, which is returned; the others keep theirs |
| Transactions.ActiveMQTransaction.GetTransactionId | src/main/activemq/core/ActiveMQTransaction.h:153-155 | the id is that of the running transaction's info |
| Transactions.ActiveMQTransaction.SetTransactionId | src/main/activemq/core/ActiveMQTransaction.h:161-163 | only the running transaction's id changes |
| Transactions.ActiveMQTransaction.ClearTransaction | src/main/activemq/core/ActiveMQTransaction.h:183-189 | the rollback map is emptied (its contents returned) and the info is cleared |
| Transactions.ActiveMQTransaction.RedeliverMessages | src/main/activemq/core/ActiveMQTransaction.h:191-201 | each message under the cap is redelivered with its count raised by one, in order; the others are dropped |
| Transactions.ActiveMQTransaction.Commit | src/main/activemq/core/ActiveMQTransaction.h:126-130 | a broker failure is reported and changes nothing; otherwise the map is empty and a fresh transaction is running |
| Transactions.ActiveMQTransaction.Rollback | src/main/activemq/core/ActiveMQTransaction.h:132-136 | on success every consumer's list is redelivered or dropped as RedeliverMessages says, the map is empty, and a fresh transaction is running; a broker failure changes nothing |
| Consumers.Remaining | src/main/activemq/core/ActiveMQConsumer.cpp:166 | the remaining budget is never negative, and (in int range) is zero exactly when the deadline has passed |
| Consumers.FirstError | src/main/activemq/core/ActiveMQConsumer.cpp:83-114 | close fails exactly when either step failed, and the first error wins |
| Consumers.FirstLive | src/main/activemq/core/ActiveMQConsumer.cpp:182-192 | the position of the first unexpired message: all before it have expired |
| Consumers.PurgeWhole | src/main/activemq/core/ActiveMQConsumer.cpp:448-465 | without a fault, purge empties the queue and destroys each message the mode deletes, in order |
| Consumers.PurgeInterrupted | src/main/activemq/core/ActiveMQConsumer.cpp:448-465 | a fault at message j stops the purge: messages before it are destroyed, j and the ones after are kept or dropped as the loop did, and the error is returned |
| Consumers.CloseEffect | src/main/activemq/core/ActiveMQConsumer.cpp:71-119 | closing an open consumer sets closed; the ConsumerInfo error is reported first; close fails exactly when a step failed; without a purge fault the queue ends empty with its messages destroyed; the listener and listener deliveries are untouched |
| Consumers.CloseIdempotent | src/main/activemq/core/ActiveMQConsumer.cpp:76 | closing a closed consumer succeeds and changes nothing |
| Consumers.NoWaitIgnoresWakes | src/main/activemq/core/ActiveMQConsumer.cpp:160-168 | dequeue(0) never waits: it consumes no wake and the clock does not move |
| Consumers.NoWait | src/main/activemq/core/ActiveMQConsumer.cpp:160-195 | dequeue(0) returns the first unexpired message and leaves the queue after it, or NoMessage with an empty queue; the expired ones it skipped are consumed |
| Consumers.NeverExpired | src/main/activemq/core/ActiveMQConsumer.cpp:182-195 | dequeue never returns a message expired at the time it returns |
| Consumers.TimedWaitEndsAtDeadline | src/main/activemq/core/ActiveMQConsumer.cpp:160-172 | dequeue's loop with a fixed deadline returns NULL only when the consumer is closed or the deadline has passed |
| Consumers.TimedDequeueEndsAtDeadline | src/main/activemq/core/ActiveMQConsumer.cpp:150-153 | dequeue(t) for t > 0 returns NULL only when the consumer is closed or now + t has passed |
| Consumers.BlockingReturnsOnlyWhenClosed | src/main/activemq/core/ActiveMQConsumer.cpp:160-172 | dequeue with a negative timeout returns NULL only once the consumer is closed |
| Consumers.DispatchThenDequeue | src/main/activemq/core/ActiveMQConsumer.cpp:437-440 | with a live message queued, dispatch appends at the tail and dequeue pops the head, so the order is FIFO |
| Consumers.DispatchThenDequeueEmpty | src/main/activemq/core/ActiveMQConsumer.cpp:437-440 | with nothing queued, a live message dispatched is what the next dequeue returns, and the queue is empty after it |
| Consumers.DispatchExpired | src/main/activemq/core/ActiveMQConsumer.cpp:413-419 | an expired message is acknowledged and destroyed, never queued or heard |
| Consumers.RedispatchToListener | src/main/activemq/core/ActiveMQConsumer.cpp:422-432 | with a listener, the redispatched backlog is heard in order, expired messages left out, and the queue is untouched |
| Consumers.ListenerTakesBacklog | src/main/activemq/core/ActiveMQConsumer.cpp:315-347 | setting a listener on an open consumer empties the queue into it, unexpired messages in order |
| Consumers.ActiveMQConsumer.constructor | src/main/activemq/core/ActiveMQConsumer.cpp:37-55 | a new consumer is open, with an empty queue, no listener and no effects |
| Consumers.ActiveMQConsumer.DestroyMessage | src/main/activemq/core/ActiveMQConsumer.cpp:468-485 | destroyMessage records the message as destroyed where the mode deletes it, and ignores NULL |
| Consumers.ActiveMQConsumer.BeforeMessageIsConsumed | src/main/activemq/core/ActiveMQConsumer.cpp:350-361 | beforeMessageIsConsumed changes only the effects, as BeforeConsumed says |
| Consumers.ActiveMQConsumer.AfterMessageIsConsumed | src/main/activemq/core/ActiveMQConsumer.cpp:364-381 | afterMessageIsConsumed acknowledges or hands on the message and destroys it, as the mode says |
| Consumers.ActiveMQConsumer.AcknowledgeMessage | src/main/activemq/core/ActiveMQConsumer.cpp:384-403 | on a closed consumer it fails with InvalidState and changes nothing; otherwise it records the acknowledgement |
| Consumers.ActiveMQConsumer.Dispatch | src/main/activemq/core/ActiveMQConsumer.cpp:406-445 | dispatch agrees with AfterDispatch: expired means ack and destroy; with a listener it is heard; otherwise appended to the queue |
| Consumers.ActiveMQConsumer.PurgeMessages | src/main/activemq/core/ActiveMQConsumer.cpp:448-465 | the purge loop agrees with Purge on its outcome and the new state |
| Consumers.ActiveMQConsumer.Close | src/main/activemq/core/ActiveMQConsumer.cpp:71-119 | close agrees with AfterClose |
| Consumers.ActiveMQConsumer.AwaitMessage | src/main/activemq/core/ActiveMQConsumer.cpp:160-168 | the inner wait loop ends with the consumer closed, a message queued or no time left, or reports it still blocked; it keeps dequeue's result unchanged |
| Consumers.ActiveMQConsumer.Dequeue | src/main/activemq/core/ActiveMQConsumer.cpp:135-205 | dequeue agrees with DequeueOutcome on the result, the new state and the clock; a closed consumer refuses with InvalidState and is not changed |
| Consumers.ActiveMQConsumer.TakeHead | src/main/activemq/core/ActiveMQConsumer.cpp:176-192 | the head is popped; an expired head is consumed as well |
| Consumers.ActiveMQConsumer.ReceiveWithin | src/main/activemq/core/ActiveMQConsumer.cpp:243-276 | receive(timeout) agrees with ReceiveOutcome; a closed consumer refuses with InvalidState and is not changed |
| Consumers.ActiveMQConsumer.Receive | src/main/activemq/core/ActiveMQConsumer.cpp:208-240 | receive() is receive with no deadline |
| Consumers.ActiveMQConsumer.ReceiveNoWait | src/main/activemq/core/ActiveMQConsumer.cpp:279-312 | receiveNoWait is receive(0) and needs no wake |
| Consumers.ActiveMQConsumer.SetMessageListener | src/main/activemq/core/ActiveMQConsumer.cpp:315-347 | setMessageListener agrees with AfterSetListener: refused once closed; a new listener takes the backlog |
| Consumers.ActiveMQConsumer.OnConnectorResourceClosed | src/main/activemq/core/ActiveMQConsumer.cpp:488-513 | refused with InvalidState when closed and IllegalArgument for another resource; its own ConsumerInfo closing closes the consumer as close does |

## Left out

- Integer widths: counts and values are unbounded integers. Only the conversions that
  put a value on the wire (`writeShort`, `writeInt`) are written out, as `ToShort` and
  `ToInt`.
- The BooleanStream's packing of eight booleans per byte, and its own marshalling, are
  not modelled. The BooleanStream is the sequence of booleans.
- The marshal and unmarshal cache tables of the cached-object helpers are not modelled.
  A cached object is written like a nested one, with its own token kind.
- The bodies of the encoding helpers are not part of this model: tight and loose string,
  long, nested-object, cached-object, broker-error, object-array and byte-sequence. Each
  is an abstract write/read pair whose reader gives back what the writer wrote.
- Several base marshallers are not part of this model, and the model assumes a layout
  for each:
  - BaseDataStreamMarshaller (the root) writes and reads nothing.
  - TransactionIdMarshaller writes and reads nothing.
  - ResponseMarshaller writes the BaseCommand fields followed by an int correlationId.
  - activemq-cpp's BaseCommandMarshaller has the openwire-cpp layout. In loose mode it
    writes commandId as an int, then responseRequired as an inline boolean.
- ProducerInfoMarshaller.EstimateExact, ProducerInfoMarshaller.Marshal1,
  BrokerInfoMarshaller.EstimateExact, BrokerInfoMarshaller.Marshal1: built on the
  corrected base estimate (plus 4). The source as written returns 3 less, on the base's
  plus 1 (see Findings); ProducerInfoMarshaller.EstimateAsWrittenShort and
  BrokerInfoMarshaller.EstimateAsWrittenShort state that value.
- ConnectionErrorMarshaller, SessionInfoMarshaller and DataArrayResponseMarshaller build
  their estimates on the corrected base estimate too, since their base marshallers are
  not part of this model.
- DataArrayResponseMarshaller.AsArray: the object-array helpers are taken to write an
  empty vector as an absent (NULL) array, which unmarshal then does not assign. So
  RoundTrip states that an empty data vector reads back as the object's previous data.
- OrderedSet.SetIterator: a change through `Set` that erases the element an iterator
  stands on or remembers (remove of that value, clear, copy) invalidates the std::set
  iterator, and the source's behaviour is then undefined. The model asks `Valid()`,
  that both cursors are still elements of the set, of every iterator operation.
- OrderedSet: the Set<E> template is modelled for int elements, ordered by the usual
  order on integers (std::less).
- Type tags come from the OpenWire numbering, because the command headers that define
  them are not part of this model. Contracts state only that a tag is one byte.
- Encoders.ArrayRoundTrip, ProducerInfoMarshaller.RoundTrip, BrokerInfoMarshaller.RoundTrip,
  DataArrayResponseMarshaller.RoundTrip: require an array of at most 32767 elements, since
  the count is written as a short.
- XATransactionIdMarshaller.RoundTrip, XATransactionIdMarshaller.BytesRoundTrip: require
  sequences of at most INT_MAX bytes, since the length is written as an int.
- The STOMP constants are assumed to follow the CONNECTED frame of the STOMP 1.0
  protocol (section "Connecting"): "CONNECTED", the "session" header, and "receipt-id"
  for the response id. StompFrame is reduced to its command and headers; its body is not
  modelled.
- ActiveMQTransaction: only the header is available. The bodies follow its doc comments:
  - Broker replies to commit and rollback are parameters, and so is the TransactionInfo
    of the transaction started afterwards.
  - The session and the connector it talks to are not modelled.
  - A message is redelivered while its redelivery count is below maxRedeliveries
    (count raised by one) and dropped once it has reached it.
  - The property parsing that sets the cap, and its default, are not modelled.
- Transactions.ActiveMQTransaction.RemoveFromTransactionById: removes every consumer
  with that id, since the map is keyed by consumer and several may share an id.
- Message expiry: isExpired is not part of this model. A message is taken to have
  expired when its expiration is positive and earlier than the clock.
- Consumer and transaction messages are ids with an expiration or a redelivery count.
  The message cloning that receive does (the clone is treated as equal to the message),
  message bodies and `delete` are left out. The consumer records ownership effects as
  lists in `Effects`: acknowledged, destroyed, handed to the transaction, and heard by
  the listener. The listener's onMessage is only recorded.
- The session's redispatch is assumed to dispatch the backlog again, in order, with the
  same clock. Starting and stopping the session is not modelled.
- ActiveMQConsumer: the destructor, getMessageSelector, the NULL checks in the
  constructor, and the exceptions rethrown from collaborators not modelled here are left
  out.
- An error while closing the ConsumerInfo is a parameter of close. So is a failure
  inside the purge, given as the position where it happens (`Fault`).
- Consumers.ActiveMQConsumer.Dispatch: does not check `closed`, as in the source.
- Waits: `wait()` and `notifyAll()` are modelled as a schedule of wake events given by
  the caller. Each event says what other threads did meanwhile: messages pushed and then
  possibly a close, for the consumer; data set or the stream closed, or a spurious wake,
  for the byte stream. close() notifies no one, so a consumer wake that pushes nothing
  and carries a close stands for a spurious or timed return of the wait, after which the
  receiver sees the consumer closed. Time (`Date::getCurrentTimeMilliseconds`) advances only at waits,
  to the clock the event carries. A call that outlives its schedule ends as `Blocked`.
- Consumers.TimedWaitEndsAtDeadline, Consumers.TimedDequeueEndsAtDeadline: require the
  deadline and every clock reading to be within int range of each other, as the
  millisecond arithmetic of the source is.
- BlockingByteArrayInput: the `pos` iterator is modelled as an index. After close it is
  kept and may exceed the emptied buffer, which no read then uses.
- Mutex locking and concurrency in general are not modelled. Every operation is atomic,
  except where a wait releases the lock.

## Findings

| source | as written | input that shows it | evidently intended | confidence | as-written member | corrected member |
|---|---|---|---|---|---|---|
| openwire-cpp/src/marshal/BaseCommandMarshaller.cpp:64 | marshal1 returns the base estimate plus 1, while marshal2 writes commandId with writeInt (4 bytes) | any command: the estimate is 1 byte, and 4 bytes are written | plus 4, the width of the int, as the other marshallers add 4 for an int field (amazon/marshal/XATransactionIdMarshaller.cpp:87, amazon/marshal/NetworkBridgeFilterMarshaller.cpp:82) | medium, not executed | BaseCommandMarshaller.Marshal1AsWritten, BaseCommandMarshaller.EstimateAsWrittenShort | BaseCommandMarshaller.Marshal1, BaseCommandMarshaller.EstimateExact |
| src/main/decaf/io/BlockingByteArrayInputStream.cpp:114-121 | after the single wait at line 117, `buffer[ix] = *(pos)` runs whenever the stream is not closing, even if `pos` is still the buffer's end | read(buf, 1) on an empty open stream, woken spuriously or by setByteArray with an empty array | wait until a byte is available or the stream is closing, then copy | high, not executed | BlockingByteArrayInput.ReadBlockAsWritten, BlockingByteArrayInput.SpuriousWakeReadsPastEnd, BlockingByteArrayInput.EmptyRefillReadsPastEnd | BlockingByteArrayInput.ReadBlock, BlockingByteArrayInput.ReadBlockAvailable, BlockingByteArrayInput.BlockingByteArrayInputStream.ReadInto |

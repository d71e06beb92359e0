/**
 * openwire-cpp JournalQueueAckMarshaller: destination and messageAck, both nested
 * objects, after the root marshaller, which writes and reads nothing.
 */
module JournalQueueAckMarshaller {
  import opened Common
  import opened Wire
  import opened Encoders

  /** The OpenWire type tag of JournalQueueAck. */
  const ID_JOURNAL_QUEUE_ACK: int := 52

  datatype JournalQueueAckValue = JournalQueueAckValue(destination: Ref, messageAck: Ref)

  class JournalQueueAck {
    var destination: Ref
    var messageAck: Ref

    constructor ()
      ensures Value() == JournalQueueAckValue(None, None)
    {
      destination := None;
      messageAck := None;
    }

    function Value(): JournalQueueAckValue
      reads this
    {
      JournalQueueAckValue(destination, messageAck)
    }
  }

  method CreateObject() returns (o: JournalQueueAck)
    ensures fresh(o) && o.Value() == JournalQueueAckValue(None, None)
  {
    o := new JournalQueueAck();
  }

  function DataStructureType(): (t: int)
    ensures 0 <= t < 256
  {
    ID_JOURNAL_QUEUE_ACK
  }

  function Bits1(v: JournalQueueAckValue): seq<bool> {
    RefBits(v.destination) + RefBits(v.messageAck)
  }

  function Size1(v: JournalQueueAckValue): nat {
    RefSize(v.destination) + RefSize(v.messageAck) + 0
  }

  function Toks2(v: JournalQueueAckValue): seq<Token> {
    RefToks(Nested, v.destination) + RefToks(Nested, v.messageAck)
  }

  function Phase2(v: JournalQueueAckValue, out: seq<Token>, bits: seq<bool>): Result<Emitted, WireError> {
    var a :- RefPhase2(Nested, v.destination, out, bits);
    RefPhase2(Nested, v.messageAck, a.toks, a.bits)
  }

  function Read(src: Input): Result<Decoded<JournalQueueAckValue>, WireError> {
    var a :- ReadRef(Nested, src);
    var b :- ReadRef(Nested, a.rest);
    Success(Decoded(JournalQueueAckValue(a.value, b.value), b.rest))
  }

  /** The estimate is the width of what marshal2 writes. */
  lemma EstimateExact(v: JournalQueueAckValue)
    ensures Size1(v) == TotalWidth(Toks2(v))
  {
    RefSizeExact(Nested, v.destination);
    RefSizeExact(Nested, v.messageAck);
    TotalWidthAppend(RefToks(Nested, v.destination), RefToks(Nested, v.messageAck));
  }

  /** marshal2 consumes exactly the booleans marshal1 wrote and appends Toks2. */
  lemma Balance(v: JournalQueueAckValue, out: seq<Token>, bits: seq<bool>)
    ensures Phase2(v, out, Bits1(v) + bits) == Success(Emitted(out + Toks2(v), bits))
  {
    var d, m := RefToks(Nested, v.destination), RefToks(Nested, v.messageAck);
    var b2 := RefBits(v.messageAck) + bits;
    AppendAssoc(RefBits(v.destination), RefBits(v.messageAck), bits);
    RefBalance(Nested, v.destination, out, b2);
    RefBalance(Nested, v.messageAck, out + d, bits);
    AppendAssoc(out, d, m);
  }

  /** unmarshal reads back both nested objects from what the two phases wrote. */
  lemma RoundTrip(v: JournalQueueAckValue, toks: seq<Token>, bits: seq<bool>)
    ensures Read(Input(Toks2(v) + toks, Bits1(v) + bits)) == Success(Decoded(v, Input(toks, bits)))
  {
    var t2, b2 := RefToks(Nested, v.messageAck) + toks, RefBits(v.messageAck) + bits;
    AppendAssoc(RefToks(Nested, v.destination), RefToks(Nested, v.messageAck), toks);
    AppendAssoc(RefBits(v.destination), RefBits(v.messageAck), bits);
    RefRoundTrip(Nested, v.destination, t2, b2);
    RefRoundTrip(Nested, v.messageAck, toks, bits);
  }

  method Marshal1(info: JournalQueueAck, bs: BooleanStream) returns (rc: nat)
    modifies bs
    ensures bs.bits == old(bs.bits) + Bits1(info.Value()) && rc == Size1(info.Value())
  {
    ghost var b0 := bs.bits;
    rc := 0;
    var n := TightMarshalRef1(info.destination, bs);
    rc := rc + n;
    n := TightMarshalRef1(info.messageAck, bs);
    AppendAssoc(b0, RefBits(info.destination), RefBits(info.messageAck));
    rc := rc + n;
    rc := rc + 0;
  }

  method Marshal2(info: JournalQueueAck, out: DataStream, bs: BooleanStream) returns (r: Outcome<WireError>)
    modifies out, bs
    ensures WriteMatches(r, Phase2(info.Value(), old(out.tokens), old(bs.bits)), out.tokens, bs.bits)
  {
    r := TightMarshalRef2(Nested, info.destination, out, bs);
    if r.Fail? {
      return;
    }
    r := TightMarshalRef2(Nested, info.messageAck, out, bs);
  }

  method Unmarshal(info: JournalQueueAck, src: DataStream, bs: BooleanStream) returns (r: Outcome<WireError>)
    modifies info, src, bs
    ensures FillMatches(r, Read(Input(old(src.tokens), old(bs.bits))), info.Value(), src.tokens, bs.bits)
  {
    var destination := TightUnmarshalRef(Nested, src, bs);
    if destination.Failure? {
      return Fail(destination.error);
    }
    info.destination := destination.value;
    var messageAck := TightUnmarshalRef(Nested, src, bs);
    if messageAck.Failure? {
      return Fail(messageAck.error);
    }
    info.messageAck := messageAck.value;
    r := Pass;
  }
}

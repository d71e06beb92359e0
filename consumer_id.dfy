/**
 * openwire-cpp ConsumerIdMarshaller: connectionId (string), sessionId (long) and value
 * (long), after the root marshaller, which writes and reads nothing.
 */
module ConsumerIdMarshaller {
  import opened Common
  import opened Wire
  import opened Encoders

  /** The OpenWire type tag of ConsumerId. */
  const ID_CONSUMER_ID: int := 122

  datatype ConsumerIdValue = ConsumerIdValue(connectionId: Option<string>, sessionId: int, value: int)

  class ConsumerId {
    var connectionId: Option<string>
    var sessionId: int
    var value: int

    constructor ()
      ensures Value() == ConsumerIdValue(None, 0, 0)
    {
      connectionId := None;
      sessionId := 0;
      value := 0;
    }

    function Value(): ConsumerIdValue
      reads this
    {
      ConsumerIdValue(connectionId, sessionId, value)
    }
  }

  method CreateObject() returns (o: ConsumerId)
    ensures fresh(o) && o.Value() == ConsumerIdValue(None, 0, 0)
  {
    o := new ConsumerId();
  }

  function DataStructureType(): (t: int)
    ensures 0 <= t < 256
  {
    ID_CONSUMER_ID
  }

  function Bits1(v: ConsumerIdValue): seq<bool> {
    StringBits(v.connectionId) + LongBits(v.sessionId) + LongBits(v.value)
  }

  function Size1(v: ConsumerIdValue): nat {
    StringSize(v.connectionId) + LongSize(v.sessionId) + LongSize(v.value) + 0
  }

  function Toks2(v: ConsumerIdValue): seq<Token> {
    StringToks(v.connectionId) + LongToks(v.sessionId) + LongToks(v.value)
  }

  function Phase2(v: ConsumerIdValue, out: seq<Token>, bits: seq<bool>): Result<Emitted, WireError> {
    var a :- StringPhase2(v.connectionId, out, bits);
    var b :- LongPhase2(v.sessionId, a.toks, a.bits);
    LongPhase2(v.value, b.toks, b.bits)
  }

  function Read(src: Input): Result<Decoded<ConsumerIdValue>, WireError> {
    var a :- ReadString(src);
    var b :- ReadLong(a.rest);
    var c :- ReadLong(b.rest);
    Success(Decoded(ConsumerIdValue(a.value, b.value, c.value), c.rest))
  }

  /** The estimate is the width of what marshal2 writes. */
  lemma EstimateExact(v: ConsumerIdValue)
    ensures Size1(v) == TotalWidth(Toks2(v))
  {
    StringSizeExact(v.connectionId);
    LongSizeExact(v.sessionId);
    LongSizeExact(v.value);
    TotalWidthAppend(StringToks(v.connectionId), LongToks(v.sessionId));
    TotalWidthAppend(StringToks(v.connectionId) + LongToks(v.sessionId), LongToks(v.value));
  }

  /** marshal2 consumes exactly the booleans marshal1 wrote and appends Toks2. */
  lemma Balance(v: ConsumerIdValue, out: seq<Token>, bits: seq<bool>)
    ensures Phase2(v, out, Bits1(v) + bits) == Success(Emitted(out + Toks2(v), bits))
  {
    var s, l1, l2 := StringToks(v.connectionId), LongToks(v.sessionId), LongToks(v.value);
    var b3 := LongBits(v.value) + bits;
    var b2 := LongBits(v.sessionId) + b3;
    assert Bits1(v) + bits == StringBits(v.connectionId) + b2;
    StringBalance(v.connectionId, out, b2);
    LongBalance(v.sessionId, out + s, b3);
    LongBalance(v.value, out + s + l1, bits);
    AppendAssoc(out, s, l1);
    AppendAssoc(out, s + l1, l2);
  }

  /** unmarshal reads back the three fields from what the two phases wrote. */
  lemma RoundTrip(v: ConsumerIdValue, toks: seq<Token>, bits: seq<bool>)
    ensures Read(Input(Toks2(v) + toks, Bits1(v) + bits)) == Success(Decoded(v, Input(toks, bits)))
  {
    var t3 := LongToks(v.value) + toks;
    var b3 := LongBits(v.value) + bits;
    var t2 := LongToks(v.sessionId) + t3;
    var b2 := LongBits(v.sessionId) + b3;
    assert Toks2(v) + toks == StringToks(v.connectionId) + t2;
    assert Bits1(v) + bits == StringBits(v.connectionId) + b2;
    StringRoundTrip(v.connectionId, t2, b2);
    LongRoundTrip(v.sessionId, t3, b3);
    LongRoundTrip(v.value, toks, bits);
  }

  method Marshal1(info: ConsumerId, bs: BooleanStream) returns (rc: nat)
    modifies bs
    ensures bs.bits == old(bs.bits) + Bits1(info.Value()) && rc == Size1(info.Value())
  {
    rc := 0;
    var n := TightMarshalString1(info.connectionId, bs);
    rc := rc + n;
    n := TightMarshalLong1(info.sessionId, bs);
    rc := rc + n;
    n := TightMarshalLong1(info.value, bs);
    rc := rc + n;
    rc := rc + 0;
  }

  method Marshal2(info: ConsumerId, out: DataStream, bs: BooleanStream) returns (r: Outcome<WireError>)
    modifies out, bs
    ensures WriteMatches(r, Phase2(info.Value(), old(out.tokens), old(bs.bits)), out.tokens, bs.bits)
  {
    r := TightMarshalString2(info.connectionId, out, bs);
    if r.Fail? {
      return;
    }
    r := TightMarshalLong2(info.sessionId, out, bs);
    if r.Fail? {
      return;
    }
    r := TightMarshalLong2(info.value, out, bs);
  }

  method Unmarshal(info: ConsumerId, src: DataStream, bs: BooleanStream) returns (r: Outcome<WireError>)
    modifies info, src, bs
    ensures FillMatches(r, Read(Input(old(src.tokens), old(bs.bits))), info.Value(), src.tokens, bs.bits)
  {
    var connectionId := TightUnmarshalString(src, bs);
    if connectionId.Failure? {
      return Fail(connectionId.error);
    }
    info.connectionId := connectionId.value;
    var sessionId := TightUnmarshalLong(src, bs);
    if sessionId.Failure? {
      return Fail(sessionId.error);
    }
    info.sessionId := sessionId.value;
    var value := TightUnmarshalLong(src, bs);
    if value.Failure? {
      return Fail(value.error);
    }
    info.value := value.value;
    r := Pass;
  }
}

/**
 * activemq-cpp (connector, OpenWire v2) ConnectionErrorMarshaller: the BaseCommand
 * fields, then exception (a broker error) and connectionId (a nested object), in both the
 * tight and the loose encoding. Every failure of a read is reported as the error of the
 * whole operation, which is how the C++ code rethrows everything as an IOException.
 */
module ConnectionErrorMarshaller {
  import opened Common
  import opened Wire
  import opened Encoders
  import BaseCommandMarshaller

  /** The OpenWire type tag of ConnectionError. */
  const ID_CONNECTION_ERROR: int := 16

  datatype ConnectionErrorValue = ConnectionErrorValue(
    header: BaseCommandMarshaller.Header,
    exception: Ref,
    connectionId: Ref)

  class ConnectionError {
    const base: BaseCommandMarshaller.BaseCommand
    var exception: Ref
    var connectionId: Ref

    constructor ()
      ensures fresh(base)
      ensures Value() == ConnectionErrorValue(BaseCommandMarshaller.Header(0, false), None, None)
    {
      base := new BaseCommandMarshaller.BaseCommand();
      exception := None;
      connectionId := None;
    }

    function Value(): ConnectionErrorValue
      reads this, base
    {
      ConnectionErrorValue(base.Value(), exception, connectionId)
    }
  }

  method CreateObject() returns (o: ConnectionError)
    ensures fresh(o) && fresh(o.base)
    ensures o.Value() == ConnectionErrorValue(BaseCommandMarshaller.Header(0, false), None, None)
  {
    o := new ConnectionError();
  }

  function GetDataStructureType(): (t: int)
    ensures 0 <= t < 256
  {
    ID_CONNECTION_ERROR
  }

  // ---------------------------------------------------------------------------
  // Tight encoding
  // ---------------------------------------------------------------------------

  function Bits1(v: ConnectionErrorValue): seq<bool> {
    BaseCommandMarshaller.Bits1(v.header) + RefBits(v.exception) + RefBits(v.connectionId)
  }

  function Size1(v: ConnectionErrorValue): nat {
    BaseCommandMarshaller.Size1(v.header) + RefSize(v.exception) + RefSize(v.connectionId) + 0
  }

  function Toks2(v: ConnectionErrorValue): seq<Token> {
    BaseCommandMarshaller.Toks2(v.header) + RefToks(BrokerErrorRef, v.exception) + RefToks(Nested, v.connectionId)
  }

  function Phase2(v: ConnectionErrorValue, out: seq<Token>, bits: seq<bool>): Result<Emitted, WireError> {
    var a :- BaseCommandMarshaller.Phase2(v.header, out, bits);
    var b :- RefPhase2(BrokerErrorRef, v.exception, a.toks, a.bits);
    RefPhase2(Nested, v.connectionId, b.toks, b.bits)
  }

  function Read(src: Input): Result<Decoded<ConnectionErrorValue>, WireError> {
    var a :- BaseCommandMarshaller.Read(src);
    var b :- ReadRef(BrokerErrorRef, a.rest);
    var c :- ReadRef(Nested, b.rest);
    Success(Decoded(ConnectionErrorValue(a.value, b.value, c.value), c.rest))
  }

  /** The estimate is the sum of the parts' estimates, the width of what phase 2 writes. */
  lemma EstimateExact(v: ConnectionErrorValue)
    ensures Size1(v) == TotalWidth(Toks2(v))
  {
    var h, e := BaseCommandMarshaller.Toks2(v.header), RefToks(BrokerErrorRef, v.exception);
    BaseCommandMarshaller.EstimateExact(v.header);
    RefSizeExact(BrokerErrorRef, v.exception);
    RefSizeExact(Nested, v.connectionId);
    TotalWidthAppend(h, e);
    TotalWidthAppend(h + e, RefToks(Nested, v.connectionId));
  }

  /** tightMarshal2 consumes exactly the booleans tightMarshal1 wrote and appends Toks2. */
  lemma Balance(v: ConnectionErrorValue, out: seq<Token>, bits: seq<bool>)
    ensures Phase2(v, out, Bits1(v) + bits) == Success(Emitted(out + Toks2(v), bits))
  {
    var h, e, c := BaseCommandMarshaller.Toks2(v.header), RefToks(BrokerErrorRef, v.exception), RefToks(Nested, v.connectionId);
    var hb, eb, cb := BaseCommandMarshaller.Bits1(v.header), RefBits(v.exception), RefBits(v.connectionId);
    var b3 := cb + bits;
    var b2 := eb + b3;
    AppendAssoc(hb + eb, cb, bits);
    AppendAssoc(hb, eb, b3);
    BaseCommandMarshaller.Balance(v.header, out, b2);
    RefBalance(BrokerErrorRef, v.exception, out + h, b3);
    RefBalance(Nested, v.connectionId, out + h + e, bits);
    AppendAssoc(out, h, e);
    AppendAssoc(out, h + e, c);
  }

  /** tightUnmarshal reads back every field from what the two phases wrote. */
  lemma RoundTrip(v: ConnectionErrorValue, toks: seq<Token>, bits: seq<bool>)
    ensures Read(Input(Toks2(v) + toks, Bits1(v) + bits)) == Success(Decoded(v, Input(toks, bits)))
  {
    var h, e, c := BaseCommandMarshaller.Toks2(v.header), RefToks(BrokerErrorRef, v.exception), RefToks(Nested, v.connectionId);
    var hb, eb, cb := BaseCommandMarshaller.Bits1(v.header), RefBits(v.exception), RefBits(v.connectionId);
    var t3, b3 := c + toks, cb + bits;
    var t2, b2 := e + t3, eb + b3;
    AppendAssoc(h + e, c, toks);
    AppendAssoc(h, e, t3);
    AppendAssoc(hb + eb, cb, bits);
    AppendAssoc(hb, eb, b3);
    BaseCommandMarshaller.RoundTrip(v.header, t2, b2);
    RefRoundTrip(BrokerErrorRef, v.exception, t3, b3);
    RefRoundTrip(Nested, v.connectionId, toks, bits);
  }

  method TightMarshal1(info: ConnectionError, bs: BooleanStream) returns (rc: nat)
    modifies bs
    ensures bs.bits == old(bs.bits) + Bits1(info.Value()) && rc == Size1(info.Value())
  {
    ghost var b0 := bs.bits;
    rc := BaseCommandMarshaller.Marshal1(info.base, bs);
    ghost var acc := BaseCommandMarshaller.Bits1(info.base.Value());
    var n := TightMarshalRef1(info.exception, bs);
    AppendAssoc(b0, acc, RefBits(info.exception));
    acc := acc + RefBits(info.exception);
    rc := rc + n;
    n := TightMarshalRef1(info.connectionId, bs);
    AppendAssoc(b0, acc, RefBits(info.connectionId));
    rc := rc + n;
    rc := rc + 0;
  }

  method TightMarshal2(info: ConnectionError, out: DataStream, bs: BooleanStream) returns (r: Outcome<WireError>)
    modifies out, bs
    ensures WriteMatches(r, Phase2(info.Value(), old(out.tokens), old(bs.bits)), out.tokens, bs.bits)
  {
    r := BaseCommandMarshaller.Marshal2(info.base, out, bs);
    if r.Fail? {
      return;
    }
    r := TightMarshalRef2(BrokerErrorRef, info.exception, out, bs);
    if r.Fail? {
      return;
    }
    r := TightMarshalRef2(Nested, info.connectionId, out, bs);
  }

  method TightUnmarshal(info: ConnectionError, src: DataStream, bs: BooleanStream) returns (r: Outcome<WireError>)
    modifies info, info.base, src, bs
    ensures FillMatches(r, Read(Input(old(src.tokens), old(bs.bits))), info.Value(), src.tokens, bs.bits)
  {
    r := BaseCommandMarshaller.Unmarshal(info.base, src, bs);
    if r.Fail? {
      return;
    }
    var exception := TightUnmarshalRef(BrokerErrorRef, src, bs);
    if exception.Failure? {
      return Fail(exception.error);
    }
    info.exception := exception.value;
    var connectionId := TightUnmarshalRef(Nested, src, bs);
    if connectionId.Failure? {
      return Fail(connectionId.error);
    }
    info.connectionId := connectionId.value;
  }

  // ---------------------------------------------------------------------------
  // Loose encoding
  // ---------------------------------------------------------------------------

  function LooseToks(v: ConnectionErrorValue): seq<Token> {
    BaseCommandMarshaller.LooseToks(v.header) + LooseRefToks(BrokerErrorRef, v.exception) + LooseRefToks(Nested, v.connectionId)
  }

  function LooseRead(src: Input): Result<Decoded<ConnectionErrorValue>, WireError> {
    var a :- BaseCommandMarshaller.LooseRead(src);
    var b :- LooseReadRef(BrokerErrorRef, a.rest);
    var c :- LooseReadRef(Nested, b.rest);
    Success(Decoded(ConnectionErrorValue(a.value, b.value, c.value), c.rest))
  }

  /** looseUnmarshal reads back, in the same order, what looseMarshal wrote. */
  lemma LooseRoundTrip(v: ConnectionErrorValue, toks: seq<Token>, bits: seq<bool>)
    ensures LooseRead(Input(LooseToks(v) + toks, bits)) == Success(Decoded(v, Input(toks, bits)))
  {
    var h, e, c := BaseCommandMarshaller.LooseToks(v.header), LooseRefToks(BrokerErrorRef, v.exception), LooseRefToks(Nested, v.connectionId);
    var t3 := c + toks;
    AppendAssoc(h + e, c, toks);
    AppendAssoc(h, e, t3);
    BaseCommandMarshaller.LooseRoundTrip(v.header, e + t3, bits);
    LooseRefRoundTrip(BrokerErrorRef, v.exception, t3, bits);
    LooseRefRoundTrip(Nested, v.connectionId, toks, bits);
  }

  method LooseMarshal(info: ConnectionError, out: DataStream)
    modifies out
    ensures out.tokens == old(out.tokens) + LooseToks(info.Value())
  {
    ghost var t0 := out.tokens;
    BaseCommandMarshaller.LooseMarshal(info.base, out);
    LooseMarshalRef(BrokerErrorRef, info.exception, out);
    AppendAssoc(t0, BaseCommandMarshaller.LooseToks(info.base.Value()), LooseRefToks(BrokerErrorRef, info.exception));
    ghost var acc := BaseCommandMarshaller.LooseToks(info.base.Value()) + LooseRefToks(BrokerErrorRef, info.exception);
    LooseMarshalRef(Nested, info.connectionId, out);
    AppendAssoc(t0, acc, LooseRefToks(Nested, info.connectionId));
  }

  method LooseUnmarshal(info: ConnectionError, src: DataStream) returns (r: Outcome<WireError>)
    modifies info, info.base, src
    ensures FillMatches(r, LooseRead(Input(old(src.tokens), [])), info.Value(), src.tokens, [])
  {
    r := BaseCommandMarshaller.LooseUnmarshal(info.base, src);
    if r.Fail? {
      return;
    }
    var exception := LooseUnmarshalRef(BrokerErrorRef, src);
    if exception.Failure? {
      return Fail(exception.error);
    }
    info.exception := exception.value;
    var connectionId := LooseUnmarshalRef(Nested, src);
    if connectionId.Failure? {
      return Fail(connectionId.error);
    }
    info.connectionId := connectionId.value;
  }
}

/**
 * openwire-cpp ProducerInfoMarshaller: the BaseCommand fields, producerId and
 * destination (cached objects), and brokerPath (an object array of nested BrokerIds).
 */
module ProducerInfoMarshaller {
  import opened Common
  import opened Wire
  import opened Encoders
  import BaseCommandMarshaller

  /** The OpenWire type tag of ProducerInfo. */
  const ID_PRODUCER_INFO: int := 6

  datatype ProducerInfoValue = ProducerInfoValue(
    header: BaseCommandMarshaller.Header,
    producerId: Ref,
    destination: Ref,
    brokerPath: Option<seq<Ref>>)

  class ProducerInfo {
    const base: BaseCommandMarshaller.BaseCommand
    var producerId: Ref
    var destination: Ref
    var brokerPath: Option<seq<Ref>>

    constructor ()
      ensures fresh(base)
      ensures Value() == ProducerInfoValue(BaseCommandMarshaller.Header(0, false), None, None, None)
    {
      base := new BaseCommandMarshaller.BaseCommand();
      producerId := None;
      destination := None;
      brokerPath := None;
    }

    function Value(): ProducerInfoValue
      reads this, base
    {
      ProducerInfoValue(base.Value(), producerId, destination, brokerPath)
    }
  }

  method CreateObject() returns (o: ProducerInfo)
    ensures fresh(o) && fresh(o.base)
    ensures o.Value() == ProducerInfoValue(BaseCommandMarshaller.Header(0, false), None, None, None)
  {
    o := new ProducerInfo();
  }

  function DataStructureType(): (t: int)
    ensures 0 <= t < 256
  {
    ID_PRODUCER_INFO
  }

  function Bits1(v: ProducerInfoValue): seq<bool> {
    BaseCommandMarshaller.Bits1(v.header) + RefBits(v.producerId) + RefBits(v.destination) + ArrayBits(v.brokerPath)
  }

  function Size1(v: ProducerInfoValue): nat {
    BaseCommandMarshaller.Size1(v.header) + RefSize(v.producerId) + RefSize(v.destination) + ArraySize(v.brokerPath) + 0
  }

  /** The estimate the source's marshal1 returns, built on the base class's as-written estimate. */
  function Size1AsWritten(v: ProducerInfoValue): nat {
    BaseCommandMarshaller.Size1AsWritten(v.header) + RefSize(v.producerId) + RefSize(v.destination) + ArraySize(v.brokerPath) + 0
  }

  function Toks2(v: ProducerInfoValue): seq<Token> {
    BaseCommandMarshaller.Toks2(v.header) + RefToks(Cached, v.producerId) + RefToks(Cached, v.destination) + ArrayToks(v.brokerPath)
  }

  function Phase2(v: ProducerInfoValue, out: seq<Token>, bits: seq<bool>): Result<Emitted, WireError> {
    var a :- BaseCommandMarshaller.Phase2(v.header, out, bits);
    var b :- RefPhase2(Cached, v.producerId, a.toks, a.bits);
    var c :- RefPhase2(Cached, v.destination, b.toks, b.bits);
    ArrayPhase2(v.brokerPath, c.toks, c.bits)
  }

  function Read(src: Input): Result<Decoded<ProducerInfoValue>, WireError> {
    var a :- BaseCommandMarshaller.Read(src);
    var b :- ReadRef(Cached, a.rest);
    var c :- ReadRef(Cached, b.rest);
    var d :- ReadArray(c.rest);
    Success(Decoded(ProducerInfoValue(a.value, b.value, c.value, d.value), d.rest))
  }

  /** The source's estimate inherits the base class's shortfall: three bytes less than marshal2 writes. */
  lemma EstimateAsWrittenShort(v: ProducerInfoValue)
    ensures Size1AsWritten(v) + 3 == TotalWidth(Toks2(v))
  {
    EstimateExact(v);
    BaseCommandMarshaller.EstimateAsWrittenShort(v.header);
  }

  /** The estimate is the width of what marshal2 writes. */
  lemma EstimateExact(v: ProducerInfoValue)
    ensures Size1(v) == TotalWidth(Toks2(v))
  {
    var h, p, d := BaseCommandMarshaller.Toks2(v.header), RefToks(Cached, v.producerId), RefToks(Cached, v.destination);
    BaseCommandMarshaller.EstimateExact(v.header);
    RefSizeExact(Cached, v.producerId);
    RefSizeExact(Cached, v.destination);
    ArraySizeExact(v.brokerPath);
    TotalWidthAppend(h, p);
    TotalWidthAppend(h + p, d);
    TotalWidthAppend(h + p + d, ArrayToks(v.brokerPath));
  }

  /** marshal2 consumes exactly the booleans marshal1 wrote and appends Toks2. */
  lemma Balance(v: ProducerInfoValue, out: seq<Token>, bits: seq<bool>)
    ensures Phase2(v, out, Bits1(v) + bits) == Success(Emitted(out + Toks2(v), bits))
  {
    var h, p, d := BaseCommandMarshaller.Toks2(v.header), RefToks(Cached, v.producerId), RefToks(Cached, v.destination);
    var b4 := ArrayBits(v.brokerPath) + bits;
    var b3 := RefBits(v.destination) + b4;
    var b2 := RefBits(v.producerId) + b3;
    var hb, pb, db := BaseCommandMarshaller.Bits1(v.header), RefBits(v.producerId), RefBits(v.destination);
    AppendAssoc(hb + pb + db, ArrayBits(v.brokerPath), bits);
    AppendAssoc(hb + pb, db, b4);
    AppendAssoc(hb, pb, b3);
    BaseCommandMarshaller.Balance(v.header, out, b2);
    RefBalance(Cached, v.producerId, out + h, b3);
    RefBalance(Cached, v.destination, out + h + p, b4);
    ArrayBalance(v.brokerPath, out + h + p + d, bits);
    AppendAssoc(out, h, p);
    AppendAssoc(out, h + p, d);
    AppendAssoc(out, h + p + d, ArrayToks(v.brokerPath));
  }

  /**
   * unmarshal reads back every field, the broker path element by element, from what the
   * two phases wrote.
   */
  lemma RoundTrip(v: ProducerInfoValue, toks: seq<Token>, bits: seq<bool>)
    requires v.brokerPath.Some? ==> |v.brokerPath.value| <= SHORT_MAX
    ensures Read(Input(Toks2(v) + toks, Bits1(v) + bits)) == Success(Decoded(v, Input(toks, bits)))
  {
    var t4, b4 := ArrayToks(v.brokerPath) + toks, ArrayBits(v.brokerPath) + bits;
    var t3, b3 := RefToks(Cached, v.destination) + t4, RefBits(v.destination) + b4;
    var t2, b2 := RefToks(Cached, v.producerId) + t3, RefBits(v.producerId) + b3;
    var h, p, d := BaseCommandMarshaller.Toks2(v.header), RefToks(Cached, v.producerId), RefToks(Cached, v.destination);
    AppendAssoc(h + p + d, ArrayToks(v.brokerPath), toks);
    AppendAssoc(h + p, d, t4);
    AppendAssoc(h, p, t3);
    var hb, pb, db := BaseCommandMarshaller.Bits1(v.header), RefBits(v.producerId), RefBits(v.destination);
    AppendAssoc(hb + pb + db, ArrayBits(v.brokerPath), bits);
    AppendAssoc(hb + pb, db, b4);
    AppendAssoc(hb, pb, b3);
    BaseCommandMarshaller.RoundTrip(v.header, t2, b2);
    RefRoundTrip(Cached, v.producerId, t3, b3);
    RefRoundTrip(Cached, v.destination, t4, b4);
    ArrayRoundTrip(v.brokerPath, toks, bits);
  }

  method Marshal1(info: ProducerInfo, bs: BooleanStream) returns (rc: nat)
    modifies bs
    ensures bs.bits == old(bs.bits) + Bits1(info.Value()) && rc == Size1(info.Value())
  {
    ghost var b0 := bs.bits;
    rc := BaseCommandMarshaller.Marshal1(info.base, bs);
    ghost var acc := BaseCommandMarshaller.Bits1(info.base.Value());
    var n := TightMarshalRef1(info.producerId, bs);
    AppendAssoc(b0, acc, RefBits(info.producerId));
    acc := acc + RefBits(info.producerId);
    rc := rc + n;
    n := TightMarshalRef1(info.destination, bs);
    AppendAssoc(b0, acc, RefBits(info.destination));
    acc := acc + RefBits(info.destination);
    rc := rc + n;
    n := TightMarshalObjectArray1(info.brokerPath, bs);
    AppendAssoc(b0, acc, ArrayBits(info.brokerPath));
    rc := rc + n;
    rc := rc + 0;
  }

  method Marshal2(info: ProducerInfo, out: DataStream, bs: BooleanStream) returns (r: Outcome<WireError>)
    modifies out, bs
    ensures WriteMatches(r, Phase2(info.Value(), old(out.tokens), old(bs.bits)), out.tokens, bs.bits)
  {
    r := BaseCommandMarshaller.Marshal2(info.base, out, bs);
    if r.Fail? {
      return;
    }
    r := TightMarshalRef2(Cached, info.producerId, out, bs);
    if r.Fail? {
      return;
    }
    r := TightMarshalRef2(Cached, info.destination, out, bs);
    if r.Fail? {
      return;
    }
    r := TightMarshalObjectArray2(info.brokerPath, out, bs);
  }

  method Unmarshal(info: ProducerInfo, src: DataStream, bs: BooleanStream) returns (r: Outcome<WireError>)
    modifies info, info.base, src, bs
    ensures FillMatches(r, Read(Input(old(src.tokens), old(bs.bits))), info.Value(), src.tokens, bs.bits)
  {
    r := BaseCommandMarshaller.Unmarshal(info.base, src, bs);
    if r.Fail? {
      return;
    }
    var producerId := TightUnmarshalRef(Cached, src, bs);
    if producerId.Failure? {
      return Fail(producerId.error);
    }
    info.producerId := producerId.value;
    var destination := TightUnmarshalRef(Cached, src, bs);
    if destination.Failure? {
      return Fail(destination.error);
    }
    info.destination := destination.value;
    var brokerPath := TightUnmarshalObjectArray(src, bs);
    if brokerPath.Failure? {
      return Fail(brokerPath.error);
    }
    info.brokerPath := brokerPath.value;
  }
}

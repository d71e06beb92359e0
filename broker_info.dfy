/**
 * openwire-cpp BrokerInfoMarshaller: the BaseCommand fields, brokerId (cached),
 * brokerURL (string), peerBrokerInfos (an object array of nested BrokerInfos),
 * brokerName (string) and three flags carried by the BooleanStream alone.
 */
module BrokerInfoMarshaller {
  import opened Common
  import opened Wire
  import opened Encoders
  import BaseCommandMarshaller

  /** The OpenWire type tag of BrokerInfo. */
  const ID_BROKER_INFO: int := 2

  datatype BrokerInfoValue = BrokerInfoValue(
    header: BaseCommandMarshaller.Header,
    brokerId: Ref,
    brokerURL: Option<string>,
    peerBrokerInfos: Option<seq<Ref>>,
    brokerName: Option<string>,
    slaveBroker: bool,
    masterBroker: bool,
    faultTolerantConfiguration: bool)

  class BrokerInfo {
    const base: BaseCommandMarshaller.BaseCommand
    var brokerId: Ref
    var brokerURL: Option<string>
    var peerBrokerInfos: Option<seq<Ref>>
    var brokerName: Option<string>
    var slaveBroker: bool
    var masterBroker: bool
    var faultTolerantConfiguration: bool

    constructor ()
      ensures fresh(base)
      ensures Value() == BrokerInfoValue(BaseCommandMarshaller.Header(0, false), None, None, None, None, false, false, false)
    {
      base := new BaseCommandMarshaller.BaseCommand();
      brokerId := None;
      brokerURL := None;
      peerBrokerInfos := None;
      brokerName := None;
      slaveBroker := false;
      masterBroker := false;
      faultTolerantConfiguration := false;
    }

    function Value(): BrokerInfoValue
      reads this, base
    {
      BrokerInfoValue(base.Value(), brokerId, brokerURL, peerBrokerInfos, brokerName,
                      slaveBroker, masterBroker, faultTolerantConfiguration)
    }
  }

  method CreateObject() returns (o: BrokerInfo)
    ensures fresh(o) && fresh(o.base)
    ensures o.Value() == BrokerInfoValue(BaseCommandMarshaller.Header(0, false), None, None, None, None, false, false, false)
  {
    o := new BrokerInfo();
  }

  function DataStructureType(): (t: int)
    ensures 0 <= t < 256
  {
    ID_BROKER_INFO
  }

  /** The three flags, in the order marshal1 writes them. */
  function FlagBits(v: BrokerInfoValue): seq<bool> {
    [v.slaveBroker, v.masterBroker, v.faultTolerantConfiguration]
  }

  function Bits1(v: BrokerInfoValue): seq<bool> {
    BaseCommandMarshaller.Bits1(v.header) + RefBits(v.brokerId) + StringBits(v.brokerURL)
      + ArrayBits(v.peerBrokerInfos) + StringBits(v.brokerName) + FlagBits(v)
  }

  function Size1(v: BrokerInfoValue): nat {
    BaseCommandMarshaller.Size1(v.header) + RefSize(v.brokerId) + StringSize(v.brokerURL)
      + ArraySize(v.peerBrokerInfos) + StringSize(v.brokerName) + 0
  }

  /** The estimate the source's marshal1 returns, built on the base class's as-written estimate. */
  function Size1AsWritten(v: BrokerInfoValue): nat {
    BaseCommandMarshaller.Size1AsWritten(v.header) + RefSize(v.brokerId) + StringSize(v.brokerURL)
      + ArraySize(v.peerBrokerInfos) + StringSize(v.brokerName) + 0
  }

  function Toks2(v: BrokerInfoValue): seq<Token> {
    BaseCommandMarshaller.Toks2(v.header) + RefToks(Cached, v.brokerId) + StringToks(v.brokerURL)
      + ArrayToks(v.peerBrokerInfos) + StringToks(v.brokerName)
  }

  /** Phase 2 of the flags: three booleans consumed, nothing written. */
  function FlagsPhase2(out: seq<Token>, bits: seq<bool>): (r: Result<Emitted, WireError>)
    ensures |bits| < 3 <==> r.Failure?
    ensures r.Success? ==> r.value == Emitted(out, bits[3..])
  {
    if |bits| < 3 then Failure(Underrun) else Success(Emitted(out, bits[3..]))
  }

  function Phase2(v: BrokerInfoValue, out: seq<Token>, bits: seq<bool>): Result<Emitted, WireError> {
    var a :- BaseCommandMarshaller.Phase2(v.header, out, bits);
    var b :- RefPhase2(Cached, v.brokerId, a.toks, a.bits);
    var c :- StringPhase2(v.brokerURL, b.toks, b.bits);
    var d :- ArrayPhase2(v.peerBrokerInfos, c.toks, c.bits);
    var e :- StringPhase2(v.brokerName, d.toks, d.bits);
    FlagsPhase2(e.toks, e.bits)
  }

  function Read(src: Input): Result<Decoded<BrokerInfoValue>, WireError> {
    var a :- BaseCommandMarshaller.Read(src);
    ReadFields(a.value, a.rest)
  }

  /** What unmarshal reads after the BaseCommand part `h`, in order. */
  function ReadFields(h: BaseCommandMarshaller.Header, src: Input): Result<Decoded<BrokerInfoValue>, WireError> {
    var b :- ReadRef(Cached, src);
    var c :- ReadString(b.rest);
    var d :- ReadArray(c.rest);
    var e :- ReadString(d.rest);
    var slave :- TakeBit(e.rest);
    var master :- TakeBit(slave.rest);
    var faultTolerant :- TakeBit(master.rest);
    Success(Decoded(BrokerInfoValue(h, b.value, c.value, d.value, e.value,
                                    slave.value, master.value, faultTolerant.value), faultTolerant.rest))
  }

  /** The source's estimate inherits the base class's shortfall: three bytes less than marshal2 writes. */
  lemma EstimateAsWrittenShort(v: BrokerInfoValue)
    ensures Size1AsWritten(v) + 3 == TotalWidth(Toks2(v))
  {
    EstimateExact(v);
    BaseCommandMarshaller.EstimateAsWrittenShort(v.header);
  }

  /** The estimate is the width of what marshal2 writes; the flags add nothing to it. */
  lemma EstimateExact(v: BrokerInfoValue)
    ensures Size1(v) == TotalWidth(Toks2(v))
  {
    var h, i, u := BaseCommandMarshaller.Toks2(v.header), RefToks(Cached, v.brokerId), StringToks(v.brokerURL);
    var p, n := ArrayToks(v.peerBrokerInfos), StringToks(v.brokerName);
    BaseCommandMarshaller.EstimateExact(v.header);
    RefSizeExact(Cached, v.brokerId);
    StringSizeExact(v.brokerURL);
    ArraySizeExact(v.peerBrokerInfos);
    StringSizeExact(v.brokerName);
    TotalWidthAppend(h, i);
    TotalWidthAppend(h + i, u);
    TotalWidthAppend(h + i + u, p);
    TotalWidthAppend(h + i + u + p, n);
  }

  /** Bits1(v) + bits, split after the header's boolean. */
  lemma BitsSplit(v: BrokerInfoValue, bits: seq<bool>)
    ensures Bits1(v) + bits
      == BaseCommandMarshaller.Bits1(v.header) + (RefBits(v.brokerId) + (StringBits(v.brokerURL)
           + (ArrayBits(v.peerBrokerInfos) + (StringBits(v.brokerName) + (FlagBits(v) + bits)))))
  {
    var hb, ib, ub := BaseCommandMarshaller.Bits1(v.header), RefBits(v.brokerId), StringBits(v.brokerURL);
    var pb, nb, fb := ArrayBits(v.peerBrokerInfos), StringBits(v.brokerName), FlagBits(v);
    AppendAssoc(hb + ib + ub + pb + nb, fb, bits);
    AppendAssoc(hb + ib + ub + pb, nb, fb + bits);
    AppendAssoc(hb + ib + ub, pb, nb + (fb + bits));
    AppendAssoc(hb + ib, ub, pb + (nb + (fb + bits)));
    AppendAssoc(hb, ib, ub + (pb + (nb + (fb + bits))));
  }

  /** marshal2 consumes exactly the booleans marshal1 wrote, the three flags included. */
  lemma Balance(v: BrokerInfoValue, out: seq<Token>, bits: seq<bool>)
    ensures Phase2(v, out, Bits1(v) + bits) == Success(Emitted(out + Toks2(v), bits))
  {
    var h, i, u := BaseCommandMarshaller.Toks2(v.header), RefToks(Cached, v.brokerId), StringToks(v.brokerURL);
    var p, n := ArrayToks(v.peerBrokerInfos), StringToks(v.brokerName);
    var b6 := FlagBits(v) + bits;
    var b5 := StringBits(v.brokerName) + b6;
    var b4 := ArrayBits(v.peerBrokerInfos) + b5;
    var b3 := StringBits(v.brokerURL) + b4;
    var b2 := RefBits(v.brokerId) + b3;
    BitsSplit(v, bits);
    BaseCommandMarshaller.Balance(v.header, out, b2);
    RefBalance(Cached, v.brokerId, out + h, b3);
    StringBalance(v.brokerURL, out + h + i, b4);
    ArrayBalance(v.peerBrokerInfos, out + h + i + u, b5);
    StringBalance(v.brokerName, out + h + i + u + p, b6);
    assert b6[3..] == bits;
    AppendAssoc(out, h, i);
    AppendAssoc(out, h + i, u);
    AppendAssoc(out, h + i + u, p);
    AppendAssoc(out, h + i + u + p, n);
  }

  /** unmarshal reads back every field from what the two phases wrote. */
  lemma RoundTrip(v: BrokerInfoValue, toks: seq<Token>, bits: seq<bool>)
    requires v.peerBrokerInfos.Some? ==> |v.peerBrokerInfos.value| <= SHORT_MAX
    ensures Read(Input(Toks2(v) + toks, Bits1(v) + bits)) == Success(Decoded(v, Input(toks, bits)))
  {
    var h, i, u := BaseCommandMarshaller.Toks2(v.header), RefToks(Cached, v.brokerId), StringToks(v.brokerURL);
    var p, n := ArrayToks(v.peerBrokerInfos), StringToks(v.brokerName);
    var b6 := FlagBits(v) + bits;
    var t5, b5 := n + toks, StringBits(v.brokerName) + b6;
    var t4, b4 := p + t5, ArrayBits(v.peerBrokerInfos) + b5;
    var t3, b3 := u + t4, StringBits(v.brokerURL) + b4;
    var t2, b2 := i + t3, RefBits(v.brokerId) + b3;
    AppendAssoc(h + i + u + p, n, toks);
    AppendAssoc(h + i + u, p, t5);
    AppendAssoc(h + i, u, t4);
    AppendAssoc(h, i, t3);
    BitsSplit(v, bits);
    BaseCommandMarshaller.RoundTrip(v.header, t2, b2);
    FieldsRoundTrip(v, t2, b2, toks, bits);
  }

  /** The fields after the header, read back from what the two phases wrote after it. */
  lemma FieldsRoundTrip(v: BrokerInfoValue, t2: seq<Token>, b2: seq<bool>, toks: seq<Token>, bits: seq<bool>)
    requires v.peerBrokerInfos.Some? ==> |v.peerBrokerInfos.value| <= SHORT_MAX
    requires t2 == RefToks(Cached, v.brokerId) + (StringToks(v.brokerURL) + (ArrayToks(v.peerBrokerInfos) + (StringToks(v.brokerName) + toks)))
    requires b2 == RefBits(v.brokerId) + (StringBits(v.brokerURL) + (ArrayBits(v.peerBrokerInfos) + (StringBits(v.brokerName) + (FlagBits(v) + bits))))
    ensures ReadFields(v.header, Input(t2, b2)) == Success(Decoded(v, Input(toks, bits)))
  {
    var b6 := FlagBits(v) + bits;
    var t5, b5 := StringToks(v.brokerName) + toks, StringBits(v.brokerName) + b6;
    var t4, b4 := ArrayToks(v.peerBrokerInfos) + t5, ArrayBits(v.peerBrokerInfos) + b5;
    var t3, b3 := StringToks(v.brokerURL) + t4, StringBits(v.brokerURL) + b4;
    RefRoundTrip(Cached, v.brokerId, t3, b3);
    StringRoundTrip(v.brokerURL, t4, b4);
    ArrayRoundTrip(v.peerBrokerInfos, t5, b5);
    StringRoundTrip(v.brokerName, toks, b6);
    assert b6[1..][1..][1..] == bits;
  }

  method Marshal1(info: BrokerInfo, bs: BooleanStream) returns (rc: nat)
    modifies bs
    ensures bs.bits == old(bs.bits) + Bits1(info.Value()) && rc == Size1(info.Value())
  {
    ghost var b0 := bs.bits;
    rc := BaseCommandMarshaller.Marshal1(info.base, bs);
    ghost var acc := BaseCommandMarshaller.Bits1(info.base.Value());
    var n := TightMarshalRef1(info.brokerId, bs);
    AppendAssoc(b0, acc, RefBits(info.brokerId));
    acc := acc + RefBits(info.brokerId);
    rc := rc + n;
    n := TightMarshalString1(info.brokerURL, bs);
    AppendAssoc(b0, acc, StringBits(info.brokerURL));
    acc := acc + StringBits(info.brokerURL);
    rc := rc + n;
    n := TightMarshalObjectArray1(info.peerBrokerInfos, bs);
    AppendAssoc(b0, acc, ArrayBits(info.peerBrokerInfos));
    acc := acc + ArrayBits(info.peerBrokerInfos);
    rc := rc + n;
    n := TightMarshalString1(info.brokerName, bs);
    AppendAssoc(b0, acc, StringBits(info.brokerName));
    acc := acc + StringBits(info.brokerName);
    rc := rc + n;
    MarshalFlags1(info, bs);
    AppendAssoc(b0, acc, FlagBits(info.Value()));
    rc := rc + 0;
  }

  /** The three flags marshal1 writes as booleans, in order. */
  method MarshalFlags1(info: BrokerInfo, bs: BooleanStream)
    modifies bs
    ensures bs.bits == old(bs.bits) + FlagBits(info.Value())
  {
    bs.WriteBoolean(info.slaveBroker);
    bs.WriteBoolean(info.masterBroker);
    bs.WriteBoolean(info.faultTolerantConfiguration);
  }

  method Marshal2(info: BrokerInfo, out: DataStream, bs: BooleanStream) returns (r: Outcome<WireError>)
    modifies out, bs
    ensures WriteMatches(r, Phase2(info.Value(), old(out.tokens), old(bs.bits)), out.tokens, bs.bits)
  {
    r := BaseCommandMarshaller.Marshal2(info.base, out, bs);
    if r.Fail? {
      return;
    }
    r := TightMarshalRef2(Cached, info.brokerId, out, bs);
    if r.Fail? {
      return;
    }
    r := TightMarshalString2(info.brokerURL, out, bs);
    if r.Fail? {
      return;
    }
    r := TightMarshalObjectArray2(info.peerBrokerInfos, out, bs);
    if r.Fail? {
      return;
    }
    r := TightMarshalString2(info.brokerName, out, bs);
    if r.Fail? {
      return;
    }
    ghost var before := bs.bits;
    var slave := bs.ReadBoolean();
    if slave.Failure? {
      return Fail(slave.error);
    }
    var master := bs.ReadBoolean();
    if master.Failure? {
      return Fail(master.error);
    }
    var faultTolerant := bs.ReadBoolean();
    if faultTolerant.Failure? {
      return Fail(faultTolerant.error);
    }
    assert bs.bits == before[3..];
    r := Pass;
  }

  method Unmarshal(info: BrokerInfo, src: DataStream, bs: BooleanStream) returns (r: Outcome<WireError>)
    modifies info, info.base, src, bs
    ensures FillMatches(r, Read(Input(old(src.tokens), old(bs.bits))), info.Value(), src.tokens, bs.bits)
  {
    r := BaseCommandMarshaller.Unmarshal(info.base, src, bs);
    if r.Fail? {
      return;
    }
    var f := UnmarshalFields(info.base.Value(), src, bs);
    if f.Failure? {
      return Fail(f.error);
    }
    StoreFields(info, f.value);
  }

  /** The setters unmarshal calls on info, one per field read after the base part. */
  method StoreFields(info: BrokerInfo, v: BrokerInfoValue)
    modifies info
    ensures info.Value() == v.(header := info.base.Value())
  {
    info.brokerId := v.brokerId;
    info.brokerURL := v.brokerURL;
    info.peerBrokerInfos := v.peerBrokerInfos;
    info.brokerName := v.brokerName;
    info.slaveBroker := v.slaveBroker;
    info.masterBroker := v.masterBroker;
    info.faultTolerantConfiguration := v.faultTolerantConfiguration;
  }

  /** The reads of unmarshal after the base part, each field in the order it is set. */
  method UnmarshalFields(h: BaseCommandMarshaller.Header, src: DataStream, bs: BooleanStream) returns (r: Result<BrokerInfoValue, WireError>)
    modifies src, bs
    ensures ReadMatches(r, ReadFields(h, Input(old(src.tokens), old(bs.bits))), src.tokens, bs.bits)
  {
    var brokerId :- TightUnmarshalRef(Cached, src, bs);
    var brokerURL :- TightUnmarshalString(src, bs);
    var peers :- TightUnmarshalObjectArray(src, bs);
    var brokerName :- TightUnmarshalString(src, bs);
    var slave :- bs.ReadBoolean();
    var master :- bs.ReadBoolean();
    var faultTolerant :- bs.ReadBoolean();
    r := Success(BrokerInfoValue(h, brokerId, brokerURL, peers, brokerName, slave, master, faultTolerant));
  }
}

/**
 * amazon NetworkBridgeFilterMarshaller: networkTTL (an int) and networkBrokerId (a cached
 * object). None of its operations delegates to a base marshaller.
 */
module NetworkBridgeFilterMarshaller {
  import opened Common
  import opened Wire
  import opened Encoders

  /** The OpenWire type tag of NetworkBridgeFilter. */
  const ID_NETWORK_BRIDGE_FILTER: int := 91

  datatype NetworkBridgeFilterValue = NetworkBridgeFilterValue(networkTTL: int, networkBrokerId: Ref)

  class NetworkBridgeFilter {
    var networkTTL: int
    var networkBrokerId: Ref

    constructor ()
      ensures Value() == NetworkBridgeFilterValue(0, None)
    {
      networkTTL := 0;
      networkBrokerId := None;
    }

    function Value(): NetworkBridgeFilterValue
      reads this
    {
      NetworkBridgeFilterValue(networkTTL, networkBrokerId)
    }
  }

  method CreateCommand() returns (o: NetworkBridgeFilter)
    ensures fresh(o) && o.Value() == NetworkBridgeFilterValue(0, None)
  {
    o := new NetworkBridgeFilter();
  }

  function DataStructureType(): (t: int)
    ensures 0 <= t < 256
  {
    ID_NETWORK_BRIDGE_FILTER
  }

  function Bits1(v: NetworkBridgeFilterValue): seq<bool> {
    RefBits(v.networkBrokerId)
  }

  function Size1(v: NetworkBridgeFilterValue): nat {
    0 + RefSize(v.networkBrokerId) + 4
  }

  function Toks2(v: NetworkBridgeFilterValue): seq<Token> {
    [IntTok(v.networkTTL)] + RefToks(Cached, v.networkBrokerId)
  }

  function Phase2(v: NetworkBridgeFilterValue, out: seq<Token>, bits: seq<bool>): Result<Emitted, WireError> {
    RefPhase2(Cached, v.networkBrokerId, out + [IntTok(v.networkTTL)], bits)
  }

  function Read(src: Input): Result<Decoded<NetworkBridgeFilterValue>, WireError> {
    var ttl :- TakeToken(src);
    if !ttl.value.IntTok? then Failure(UnexpectedToken)
    else
      var id :- ReadRef(Cached, ttl.rest);
      Success(Decoded(NetworkBridgeFilterValue(ttl.value.i, id.value), id.rest))
  }

  /** The estimate (the cached object's, plus 4 for networkTTL) is what marshal2 writes. */
  lemma EstimateExact(v: NetworkBridgeFilterValue)
    ensures Size1(v) == TotalWidth(Toks2(v))
  {
    RefSizeExact(Cached, v.networkBrokerId);
    TotalWidthAppend([IntTok(v.networkTTL)], RefToks(Cached, v.networkBrokerId));
  }

  /** marshal2 consumes exactly the boolean marshal1 wrote and appends Toks2. */
  lemma Balance(v: NetworkBridgeFilterValue, out: seq<Token>, bits: seq<bool>)
    ensures Phase2(v, out, Bits1(v) + bits) == Success(Emitted(out + Toks2(v), bits))
  {
    RefBalance(Cached, v.networkBrokerId, out + [IntTok(v.networkTTL)], bits);
    AppendAssoc(out, [IntTok(v.networkTTL)], RefToks(Cached, v.networkBrokerId));
  }

  /** unmarshal reads back networkTTL, then the broker id, from what the two phases wrote. */
  lemma RoundTrip(v: NetworkBridgeFilterValue, toks: seq<Token>, bits: seq<bool>)
    ensures Read(Input(Toks2(v) + toks, Bits1(v) + bits)) == Success(Decoded(v, Input(toks, bits)))
  {
    var rest := RefToks(Cached, v.networkBrokerId) + toks;
    assert (Toks2(v) + toks)[1..] == rest;
    RefRoundTrip(Cached, v.networkBrokerId, toks, bits);
  }

  method Marshal1(info: NetworkBridgeFilter, bs: BooleanStream) returns (rc: nat)
    modifies bs
    ensures bs.bits == old(bs.bits) + Bits1(info.Value()) && rc == Size1(info.Value())
  {
    rc := 0;
    var n := TightMarshalRef1(info.networkBrokerId, bs);
    rc := rc + n;
    rc := rc + 4;
  }

  method Marshal2(info: NetworkBridgeFilter, out: DataStream, bs: BooleanStream) returns (r: Outcome<WireError>)
    modifies out, bs
    ensures WriteMatches(r, Phase2(info.Value(), old(out.tokens), old(bs.bits)), out.tokens, bs.bits)
  {
    out.Write(IntTok(info.networkTTL));
    r := TightMarshalRef2(Cached, info.networkBrokerId, out, bs);
  }

  method Unmarshal(info: NetworkBridgeFilter, src: DataStream, bs: BooleanStream) returns (r: Outcome<WireError>)
    modifies info, src, bs
    ensures FillMatches(r, Read(Input(old(src.tokens), old(bs.bits))), info.Value(), src.tokens, bs.bits)
  {
    var ttl := src.Read();
    if ttl.Failure? {
      return Fail(ttl.error);
    }
    if !ttl.value.IntTok? {
      return Fail(UnexpectedToken);
    }
    info.networkTTL := ttl.value.i;
    var id := TightUnmarshalRef(Cached, src, bs);
    if id.Failure? {
      return Fail(id.error);
    }
    info.networkBrokerId := id.value;
    r := Pass;
  }
}

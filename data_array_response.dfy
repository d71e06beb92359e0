/**
 * amazon DataArrayResponseMarshaller: the Response fields, then data, a vector of nested
 * objects written as an object array.
 *
 * The Response marshaller and the object-array estimate and phase-2 helpers are not part
 * of this model. A Response is taken to be the BaseCommand fields followed by the int
 * correlationId, and the object-array helpers are taken to write the presence boolean as
 * true exactly for a non-empty vector, so an empty vector is marshalled as an absent array.
 */
module DataArrayResponseMarshaller {
  import opened Common
  import opened Wire
  import opened Encoders
  import BaseCommandMarshaller

  /** The OpenWire type tag of DataArrayResponse. */
  const ID_DATA_ARRAY_RESPONSE: int := 33

  /** The fields of the Response part. */
  datatype ResponseHeader = ResponseHeader(command: BaseCommandMarshaller.Header, correlationId: int)

  datatype DataArrayResponseValue = DataArrayResponseValue(response: ResponseHeader, data: seq<Ref>)

  class DataArrayResponse {
    const base: BaseCommandMarshaller.BaseCommand
    var correlationId: int
    var data: seq<Ref>

    constructor ()
      ensures fresh(base)
      ensures Value() == DataArrayResponseValue(ResponseHeader(BaseCommandMarshaller.Header(0, false), 0), [])
    {
      base := new BaseCommandMarshaller.BaseCommand();
      correlationId := 0;
      data := [];
    }

    function Value(): DataArrayResponseValue
      reads this, base
    {
      DataArrayResponseValue(ResponseHeader(base.Value(), correlationId), data)
    }
  }

  method CreateCommand() returns (o: DataArrayResponse)
    ensures fresh(o) && fresh(o.base)
    ensures o.Value() == DataArrayResponseValue(ResponseHeader(BaseCommandMarshaller.Header(0, false), 0), [])
  {
    o := new DataArrayResponse();
  }

  function DataStructureType(): (t: int)
    ensures 0 <= t < 256
  {
    ID_DATA_ARRAY_RESPONSE
  }

  // ---------------------------------------------------------------------------
  // The Response part
  // ---------------------------------------------------------------------------

  function ResponseBits(h: ResponseHeader): seq<bool> {
    BaseCommandMarshaller.Bits1(h.command)
  }

  function ResponseSize(h: ResponseHeader): nat {
    BaseCommandMarshaller.Size1(h.command) + 4
  }

  function ResponseToks(h: ResponseHeader): seq<Token> {
    BaseCommandMarshaller.Toks2(h.command) + [IntTok(h.correlationId)]
  }

  function ResponsePhase2(h: ResponseHeader, out: seq<Token>, bits: seq<bool>): Result<Emitted, WireError> {
    var a :- BaseCommandMarshaller.Phase2(h.command, out, bits);
    Success(Emitted(a.toks + [IntTok(h.correlationId)], a.bits))
  }

  function ResponseRead(src: Input): Result<Decoded<ResponseHeader>, WireError> {
    var a :- BaseCommandMarshaller.Read(src);
    var c :- TakeToken(a.rest);
    if !c.value.IntTok? then Failure(UnexpectedToken)
    else Success(Decoded(ResponseHeader(a.value, c.value.i), c.rest))
  }

  // ---------------------------------------------------------------------------
  // The whole object
  // ---------------------------------------------------------------------------

  /** The object array the helpers see for the vector `data`. */
  function AsArray(data: seq<Ref>): (a: Option<seq<Ref>>)
    ensures a.None? <==> data == []
    ensures a.Some? ==> a.value == data
  {
    if data == [] then None else Some(data)
  }

  function Bits1(v: DataArrayResponseValue): seq<bool> {
    ResponseBits(v.response) + ArrayBits(AsArray(v.data))
  }

  function Size1(v: DataArrayResponseValue): nat {
    ResponseSize(v.response) + ArraySize(AsArray(v.data)) + 0
  }

  function Toks2(v: DataArrayResponseValue): seq<Token> {
    ResponseToks(v.response) + ArrayToks(AsArray(v.data))
  }

  function Phase2(v: DataArrayResponseValue, out: seq<Token>, bits: seq<bool>): Result<Emitted, WireError> {
    var a :- ResponsePhase2(v.response, out, bits);
    ArrayPhase2(AsArray(v.data), a.toks, a.bits)
  }

  /**
   * unmarshal into an object whose data is `prev`: an absent array leaves `prev` in place,
   * since the source sets data only when the presence boolean is true.
   */
  function Read(prev: seq<Ref>, src: Input): Result<Decoded<DataArrayResponseValue>, WireError> {
    var h :- ResponseRead(src);
    var a :- ReadArray(h.rest);
    var data := if a.value.Some? then a.value.value else prev;
    Success(Decoded(DataArrayResponseValue(h.value, data), a.rest))
  }

  /** The estimate is the width of what marshal2 writes. */
  lemma EstimateExact(v: DataArrayResponseValue)
    ensures Size1(v) == TotalWidth(Toks2(v))
  {
    var b := BaseCommandMarshaller.Toks2(v.response.command);
    BaseCommandMarshaller.EstimateExact(v.response.command);
    TotalWidthAppend(b, [IntTok(v.response.correlationId)]);
    ArraySizeExact(AsArray(v.data));
    TotalWidthAppend(ResponseToks(v.response), ArrayToks(AsArray(v.data)));
  }

  /** marshal2 consumes exactly the booleans marshal1 wrote and appends Toks2. */
  lemma Balance(v: DataArrayResponseValue, out: seq<Token>, bits: seq<bool>)
    ensures Phase2(v, out, Bits1(v) + bits) == Success(Emitted(out + Toks2(v), bits))
  {
    var h, c, d := BaseCommandMarshaller.Toks2(v.response.command), [IntTok(v.response.correlationId)], ArrayToks(AsArray(v.data));
    var b2 := ArrayBits(AsArray(v.data)) + bits;
    AppendAssoc(ResponseBits(v.response), ArrayBits(AsArray(v.data)), bits);
    BaseCommandMarshaller.Balance(v.response.command, out, b2);
    ArrayBalance(AsArray(v.data), out + h + c, bits);
    AppendAssoc(out, h, c);
    AppendAssoc(out, h + c, d);
  }

  /**
   * unmarshal reads back the Response fields and a non-empty data vector; an empty vector
   * goes on the wire as an absent array, so the object's previous data is kept.
   */
  lemma RoundTrip(v: DataArrayResponseValue, prev: seq<Ref>, toks: seq<Token>, bits: seq<bool>)
    requires |v.data| <= SHORT_MAX
    ensures v.data != [] ==> Read(prev, Input(Toks2(v) + toks, Bits1(v) + bits)) == Success(Decoded(v, Input(toks, bits)))
    ensures v.data == [] ==> Read(prev, Input(Toks2(v) + toks, Bits1(v) + bits)) == Success(Decoded(v.(data := prev), Input(toks, bits)))
  {
    var h, c, d := BaseCommandMarshaller.Toks2(v.response.command), [IntTok(v.response.correlationId)], ArrayToks(AsArray(v.data));
    var t3, b2 := d + toks, ArrayBits(AsArray(v.data)) + bits;
    var t2 := c + t3;
    AppendAssoc(h + c, d, toks);
    AppendAssoc(h, c, t3);
    AppendAssoc(ResponseBits(v.response), ArrayBits(AsArray(v.data)), bits);
    BaseCommandMarshaller.RoundTrip(v.response.command, t2, b2);
    assert TakeToken(Input(t2, b2)) == Success(Decoded(IntTok(v.response.correlationId), Input(t3, b2))) by {
      assert t2[1..] == t3;
    }
    ArrayRoundTrip(AsArray(v.data), toks, bits);
  }

  /** Unmarshalled into a new object, whose data is empty, the value comes back whole. */
  lemma RoundTripFresh(v: DataArrayResponseValue, toks: seq<Token>, bits: seq<bool>)
    requires |v.data| <= SHORT_MAX
    ensures Read([], Input(Toks2(v) + toks, Bits1(v) + bits)) == Success(Decoded(v, Input(toks, bits)))
  {
    RoundTrip(v, [], toks, bits);
  }

  method Marshal1(info: DataArrayResponse, bs: BooleanStream) returns (rc: nat)
    modifies bs
    ensures bs.bits == old(bs.bits) + Bits1(info.Value()) && rc == Size1(info.Value())
  {
    ghost var b0 := bs.bits;
    rc := BaseCommandMarshaller.Marshal1(info.base, bs);
    rc := rc + 4;
    var n := TightMarshalObjectArray1(AsArray(info.data), bs);
    AppendAssoc(b0, ResponseBits(info.Value().response), ArrayBits(AsArray(info.data)));
    rc := rc + n;
    rc := rc + 0;
  }

  method Marshal2(info: DataArrayResponse, out: DataStream, bs: BooleanStream) returns (r: Outcome<WireError>)
    modifies out, bs
    ensures WriteMatches(r, Phase2(info.Value(), old(out.tokens), old(bs.bits)), out.tokens, bs.bits)
  {
    r := BaseCommandMarshaller.Marshal2(info.base, out, bs);
    if r.Fail? {
      return;
    }
    out.Write(IntTok(info.correlationId));
    r := TightMarshalObjectArray2(AsArray(info.data), out, bs);
  }

  method Unmarshal(info: DataArrayResponse, src: DataStream, bs: BooleanStream) returns (r: Outcome<WireError>)
    modifies info, info.base, src, bs
    ensures FillMatches(r, Read(old(info.data), Input(old(src.tokens), old(bs.bits))), info.Value(), src.tokens, bs.bits)
  {
    r := BaseCommandMarshaller.Unmarshal(info.base, src, bs);
    if r.Fail? {
      return;
    }
    var c := src.Read();
    if c.Failure? {
      return Fail(c.error);
    }
    if !c.value.IntTok? {
      return Fail(UnexpectedToken);
    }
    info.correlationId := c.value.i;
    var data := TightUnmarshalObjectArray(src, bs);
    if data.Failure? {
      return Fail(data.error);
    }
    if data.value.Some? {
      info.data := data.value.value;
    }
  }
}

/**
 * activemq-cpp (wireformat, generated) SessionInfoMarshaller: the BaseCommand fields,
 * then sessionId as a cached object, in both the tight and the loose encoding. Every
 * failure of a read is reported as the error of the whole operation, as the C++ code
 * rethrows everything as an IOException.
 */
module SessionInfoMarshaller {
  import opened Common
  import opened Wire
  import opened Encoders
  import BaseCommandMarshaller

  /** The OpenWire type tag of SessionInfo. */
  const ID_SESSION_INFO: int := 4

  datatype SessionInfoValue = SessionInfoValue(header: BaseCommandMarshaller.Header, sessionId: Ref)

  class SessionInfo {
    const base: BaseCommandMarshaller.BaseCommand
    var sessionId: Ref

    constructor ()
      ensures fresh(base)
      ensures Value() == SessionInfoValue(BaseCommandMarshaller.Header(0, false), None)
    {
      base := new BaseCommandMarshaller.BaseCommand();
      sessionId := None;
    }

    function Value(): SessionInfoValue
      reads this, base
    {
      SessionInfoValue(base.Value(), sessionId)
    }
  }

  method CreateObject() returns (o: SessionInfo)
    ensures fresh(o) && fresh(o.base)
    ensures o.Value() == SessionInfoValue(BaseCommandMarshaller.Header(0, false), None)
  {
    o := new SessionInfo();
  }

  function GetDataStructureType(): (t: int)
    ensures 0 <= t < 256
  {
    ID_SESSION_INFO
  }

  // ---------------------------------------------------------------------------
  // Tight encoding
  // ---------------------------------------------------------------------------

  function Bits1(v: SessionInfoValue): seq<bool> {
    BaseCommandMarshaller.Bits1(v.header) + RefBits(v.sessionId)
  }

  function Size1(v: SessionInfoValue): nat {
    BaseCommandMarshaller.Size1(v.header) + RefSize(v.sessionId) + 0
  }

  function Toks2(v: SessionInfoValue): seq<Token> {
    BaseCommandMarshaller.Toks2(v.header) + RefToks(Cached, v.sessionId)
  }

  function Phase2(v: SessionInfoValue, out: seq<Token>, bits: seq<bool>): Result<Emitted, WireError> {
    var a :- BaseCommandMarshaller.Phase2(v.header, out, bits);
    RefPhase2(Cached, v.sessionId, a.toks, a.bits)
  }

  function Read(src: Input): Result<Decoded<SessionInfoValue>, WireError> {
    var a :- BaseCommandMarshaller.Read(src);
    var b :- ReadRef(Cached, a.rest);
    Success(Decoded(SessionInfoValue(a.value, b.value), b.rest))
  }

  /** The estimate (base plus the cached object's) is the width of what phase 2 writes. */
  lemma EstimateExact(v: SessionInfoValue)
    ensures Size1(v) == TotalWidth(Toks2(v))
  {
    BaseCommandMarshaller.EstimateExact(v.header);
    RefSizeExact(Cached, v.sessionId);
    TotalWidthAppend(BaseCommandMarshaller.Toks2(v.header), RefToks(Cached, v.sessionId));
  }

  /** tightMarshal2 consumes exactly the booleans tightMarshal1 wrote and appends Toks2. */
  lemma Balance(v: SessionInfoValue, out: seq<Token>, bits: seq<bool>)
    ensures Phase2(v, out, Bits1(v) + bits) == Success(Emitted(out + Toks2(v), bits))
  {
    var h := BaseCommandMarshaller.Toks2(v.header);
    var b2 := RefBits(v.sessionId) + bits;
    AppendAssoc(BaseCommandMarshaller.Bits1(v.header), RefBits(v.sessionId), bits);
    BaseCommandMarshaller.Balance(v.header, out, b2);
    RefBalance(Cached, v.sessionId, out + h, bits);
    AppendAssoc(out, h, RefToks(Cached, v.sessionId));
  }

  /** tightUnmarshal reads back the base fields and sessionId from what the phases wrote. */
  lemma RoundTrip(v: SessionInfoValue, toks: seq<Token>, bits: seq<bool>)
    ensures Read(Input(Toks2(v) + toks, Bits1(v) + bits)) == Success(Decoded(v, Input(toks, bits)))
  {
    var t2, b2 := RefToks(Cached, v.sessionId) + toks, RefBits(v.sessionId) + bits;
    AppendAssoc(BaseCommandMarshaller.Toks2(v.header), RefToks(Cached, v.sessionId), toks);
    AppendAssoc(BaseCommandMarshaller.Bits1(v.header), RefBits(v.sessionId), bits);
    BaseCommandMarshaller.RoundTrip(v.header, t2, b2);
    RefRoundTrip(Cached, v.sessionId, toks, bits);
  }

  method TightMarshal1(info: SessionInfo, bs: BooleanStream) returns (rc: nat)
    modifies bs
    ensures bs.bits == old(bs.bits) + Bits1(info.Value()) && rc == Size1(info.Value())
  {
    ghost var b0 := bs.bits;
    rc := BaseCommandMarshaller.Marshal1(info.base, bs);
    var n := TightMarshalRef1(info.sessionId, bs);
    AppendAssoc(b0, BaseCommandMarshaller.Bits1(info.base.Value()), RefBits(info.sessionId));
    rc := rc + n;
    rc := rc + 0;
  }

  method TightMarshal2(info: SessionInfo, out: DataStream, bs: BooleanStream) returns (r: Outcome<WireError>)
    modifies out, bs
    ensures WriteMatches(r, Phase2(info.Value(), old(out.tokens), old(bs.bits)), out.tokens, bs.bits)
  {
    r := BaseCommandMarshaller.Marshal2(info.base, out, bs);
    if r.Fail? {
      return;
    }
    r := TightMarshalRef2(Cached, info.sessionId, out, bs);
  }

  method TightUnmarshal(info: SessionInfo, src: DataStream, bs: BooleanStream) returns (r: Outcome<WireError>)
    modifies info, info.base, src, bs
    ensures FillMatches(r, Read(Input(old(src.tokens), old(bs.bits))), info.Value(), src.tokens, bs.bits)
  {
    r := BaseCommandMarshaller.Unmarshal(info.base, src, bs);
    if r.Fail? {
      return;
    }
    var sessionId := TightUnmarshalRef(Cached, src, bs);
    if sessionId.Failure? {
      return Fail(sessionId.error);
    }
    info.sessionId := sessionId.value;
  }

  // ---------------------------------------------------------------------------
  // Loose encoding
  // ---------------------------------------------------------------------------

  function LooseToks(v: SessionInfoValue): seq<Token> {
    BaseCommandMarshaller.LooseToks(v.header) + LooseRefToks(Cached, v.sessionId)
  }

  function LooseRead(src: Input): Result<Decoded<SessionInfoValue>, WireError> {
    var a :- BaseCommandMarshaller.LooseRead(src);
    var b :- LooseReadRef(Cached, a.rest);
    Success(Decoded(SessionInfoValue(a.value, b.value), b.rest))
  }

  /** looseUnmarshal reads back, in the same order, what looseMarshal wrote. */
  lemma LooseRoundTrip(v: SessionInfoValue, toks: seq<Token>, bits: seq<bool>)
    ensures LooseRead(Input(LooseToks(v) + toks, bits)) == Success(Decoded(v, Input(toks, bits)))
  {
    var t2 := LooseRefToks(Cached, v.sessionId) + toks;
    AppendAssoc(BaseCommandMarshaller.LooseToks(v.header), LooseRefToks(Cached, v.sessionId), toks);
    BaseCommandMarshaller.LooseRoundTrip(v.header, t2, bits);
    LooseRefRoundTrip(Cached, v.sessionId, toks, bits);
  }

  method LooseMarshal(info: SessionInfo, out: DataStream)
    modifies out
    ensures out.tokens == old(out.tokens) + LooseToks(info.Value())
  {
    ghost var t0 := out.tokens;
    BaseCommandMarshaller.LooseMarshal(info.base, out);
    LooseMarshalRef(Cached, info.sessionId, out);
    AppendAssoc(t0, BaseCommandMarshaller.LooseToks(info.base.Value()), LooseRefToks(Cached, info.sessionId));
  }

  method LooseUnmarshal(info: SessionInfo, src: DataStream) returns (r: Outcome<WireError>)
    modifies info, info.base, src
    ensures FillMatches(r, LooseRead(Input(old(src.tokens), [])), info.Value(), src.tokens, [])
  {
    r := BaseCommandMarshaller.LooseUnmarshal(info.base, src);
    if r.Fail? {
      return;
    }
    var sessionId := LooseUnmarshalRef(Cached, src);
    if sessionId.Failure? {
      return Fail(sessionId.error);
    }
    info.sessionId := sessionId.value;
  }
}

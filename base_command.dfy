/**
 * openwire-cpp BaseCommandMarshaller: the commandId and responseRequired fields every
 * command carries. The root marshaller it delegates to first writes and reads nothing.
 *
 * marshal1 as written returns the base estimate plus 1, while marshal2 writes commandId
 * as a four-byte int; `Marshal1AsWritten` keeps that, `Marshal1` returns plus 4, and the
 * other marshallers of this model build on `Marshal1`. The activemq-cpp lineage's
 * BaseCommandMarshaller is not part of this model; its commands are given the same
 * layout, and its loose form writes commandId as an int and responseRequired as an
 * inline boolean.
 */
module BaseCommandMarshaller {
  import opened Common
  import opened Wire
  import opened Encoders

  datatype Header = Header(commandId: int, responseRequired: bool)

  /** The BaseCommand part of a command object. */
  class BaseCommand {
    var commandId: int
    var responseRequired: bool

    constructor ()
      ensures commandId == 0 && !responseRequired
    {
      commandId := 0;
      responseRequired := false;
    }

    function Value(): Header
      reads this
    {
      Header(commandId, responseRequired)
    }
  }

  // ---------------------------------------------------------------------------
  // Tight encoding
  // ---------------------------------------------------------------------------

  function Bits1(h: Header): seq<bool> {
    [h.responseRequired]
  }

  function Toks2(h: Header): seq<Token> {
    [IntTok(h.commandId)]
  }

  /** The estimate marshal1 returns as written: the root's 0, plus 1. */
  function Size1AsWritten(h: Header): nat {
    1
  }

  /** The estimate marshal1 should return: the width of the int marshal2 writes. */
  function Size1(h: Header): nat {
    4
  }

  function Phase2(h: Header, out: seq<Token>, bits: seq<bool>): Result<Emitted, WireError> {
    ConsumeOne(out, bits, Toks2(h))
  }

  function Read(src: Input): Result<Decoded<Header>, WireError> {
    var id :- TakeToken(src);
    if !id.value.IntTok? then Failure(UnexpectedToken)
    else
      var flag :- TakeBit(id.rest);
      Success(Decoded(Header(id.value.i, flag.value), flag.rest))
  }

  /** The as-written estimate falls three bytes short of what marshal2 writes. */
  lemma EstimateAsWrittenShort(h: Header)
    ensures Size1AsWritten(h) + 3 == TotalWidth(Toks2(h))
    ensures Size1AsWritten(h) < TotalWidth(Toks2(h))
  {
  }

  /** The corrected estimate is exactly what marshal2 writes. */
  lemma EstimateExact(h: Header)
    ensures Size1(h) == TotalWidth(Toks2(h))
  {
  }

  /** marshal2 consumes exactly the boolean marshal1 wrote. */
  lemma Balance(h: Header, out: seq<Token>, bits: seq<bool>)
    ensures Phase2(h, out, Bits1(h) + bits) == Success(Emitted(out + Toks2(h), bits))
  {
    assert (Bits1(h) + bits)[1..] == bits;
  }

  /** unmarshal reads back what marshal1 and marshal2 wrote, and leaves what follows. */
  lemma RoundTrip(h: Header, toks: seq<Token>, bits: seq<bool>)
    ensures Read(Input(Toks2(h) + toks, Bits1(h) + bits)) == Success(Decoded(h, Input(toks, bits)))
  {
    assert (Toks2(h) + toks)[1..] == toks;
    assert (Bits1(h) + bits)[1..] == bits;
  }

  method Marshal1AsWritten(info: BaseCommand, bs: BooleanStream) returns (rc: nat)
    modifies bs
    ensures bs.bits == old(bs.bits) + Bits1(info.Value()) && rc == Size1AsWritten(info.Value())
  {
    rc := 0;
    bs.WriteBoolean(info.responseRequired);
    rc := rc + 1;
  }

  method Marshal1(info: BaseCommand, bs: BooleanStream) returns (rc: nat)
    modifies bs
    ensures bs.bits == old(bs.bits) + Bits1(info.Value()) && rc == Size1(info.Value())
  {
    rc := 0;
    bs.WriteBoolean(info.responseRequired);
    rc := rc + 4;
  }

  method Marshal2(info: BaseCommand, out: DataStream, bs: BooleanStream) returns (r: Outcome<WireError>)
    modifies out, bs
    ensures WriteMatches(r, Phase2(info.Value(), old(out.tokens), old(bs.bits)), out.tokens, bs.bits)
  {
    out.Write(IntTok(info.commandId));
    var b := bs.ReadBoolean();
    if b.Failure? {
      return Fail(b.error);
    }
    r := Pass;
  }

  method Unmarshal(info: BaseCommand, src: DataStream, bs: BooleanStream) returns (r: Outcome<WireError>)
    modifies info, src, bs
    ensures FillMatches(r, Read(Input(old(src.tokens), old(bs.bits))), info.Value(), src.tokens, bs.bits)
  {
    var id := src.Read();
    if id.Failure? {
      return Fail(id.error);
    }
    if !id.value.IntTok? {
      return Fail(UnexpectedToken);
    }
    info.commandId := id.value.i;
    var flag := bs.ReadBoolean();
    if flag.Failure? {
      return Fail(flag.error);
    }
    info.responseRequired := flag.value;
    r := Pass;
  }

  // ---------------------------------------------------------------------------
  // Loose encoding (activemq-cpp lineage)
  // ---------------------------------------------------------------------------

  function LooseToks(h: Header): seq<Token> {
    [IntTok(h.commandId), BoolTok(h.responseRequired)]
  }

  function LooseRead(src: Input): Result<Decoded<Header>, WireError> {
    var id :- TakeToken(src);
    var flag :- TakeToken(id.rest);
    if id.value.IntTok? && flag.value.BoolTok? then Success(Decoded(Header(id.value.i, flag.value.flag), flag.rest))
    else Failure(UnexpectedToken)
  }

  lemma LooseRoundTrip(h: Header, toks: seq<Token>, bits: seq<bool>)
    ensures LooseRead(Input(LooseToks(h) + toks, bits)) == Success(Decoded(h, Input(toks, bits)))
  {
    assert (LooseToks(h) + toks)[1..][1..] == toks;
  }

  method LooseMarshal(info: BaseCommand, out: DataStream)
    modifies out
    ensures out.tokens == old(out.tokens) + LooseToks(info.Value())
  {
    out.Write(IntTok(info.commandId));
    out.Write(BoolTok(info.responseRequired));
  }

  method LooseUnmarshal(info: BaseCommand, src: DataStream) returns (r: Outcome<WireError>)
    modifies info, src
    ensures FillMatches(r, LooseRead(Input(old(src.tokens), [])), info.Value(), src.tokens, [])
  {
    var id := src.Read();
    if id.Failure? {
      return Fail(id.error);
    }
    var flag := src.Read();
    if flag.Failure? {
      return Fail(flag.error);
    }
    if !id.value.IntTok? || !flag.value.BoolTok? {
      return Fail(UnexpectedToken);
    }
    info.commandId := id.value.i;
    info.responseRequired := flag.value.flag;
    r := Pass;
  }
}

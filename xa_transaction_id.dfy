/**
 * amazon XATransactionIdMarshaller: formatId (an int), then globalTransactionId and
 * branchQualifier (byte sequences), after the TransactionId marshaller, which has no
 * fields of its own and writes and reads nothing.
 *
 * The byte sequences are written inline: phase 1 writes one boolean per sequence, true
 * exactly when it is non-empty, and phase 2 writes the int length and the bytes only when
 * the boolean it reads back is true.
 */
module XATransactionIdMarshaller {
  import opened Common
  import opened Wire
  import opened Encoders

  /** The OpenWire type tag of XATransactionId. */
  const ID_XA_TRANSACTION_ID: int := 112

  datatype XATransactionIdValue = XATransactionIdValue(
    formatId: int,
    globalTransactionId: seq<byte>,
    branchQualifier: seq<byte>)

  class XATransactionId {
    var formatId: int
    var globalTransactionId: seq<byte>
    var branchQualifier: seq<byte>

    constructor ()
      ensures Value() == XATransactionIdValue(0, [], [])
    {
      formatId := 0;
      globalTransactionId := [];
      branchQualifier := [];
    }

    function Value(): XATransactionIdValue
      reads this
    {
      XATransactionIdValue(formatId, globalTransactionId, branchQualifier)
    }
  }

  method CreateCommand() returns (o: XATransactionId)
    ensures fresh(o) && o.Value() == XATransactionIdValue(0, [], [])
  {
    o := new XATransactionId();
  }

  function DataStructureType(): (t: int)
    ensures 0 <= t < 256
  {
    ID_XA_TRANSACTION_ID
  }

  // ---------------------------------------------------------------------------
  // One byte sequence
  // ---------------------------------------------------------------------------

  /** The presence boolean marshal1 writes: true exactly for a non-empty sequence. */
  function BytesBits(b: seq<byte>): (r: seq<bool>)
    ensures r == [b != []]
  {
    [b != []]
  }

  /** What marshal1 adds to the estimate for one sequence. */
  function BytesSize(b: seq<byte>): nat {
    if b == [] then 0 else |b| + 4
  }

  /** What marshal2 writes for a sequence whose boolean is true: int length, then bytes. */
  function PresentToks(b: seq<byte>): seq<Token> {
    [IntTok(ToInt(|b|))] + ByteToks(b)
  }

  /** What marshal2 writes for a sequence after marshal1 ran on the same sequence. */
  function BytesToks(b: seq<byte>): (r: seq<Token>)
    ensures b == [] <==> r == []
    ensures b != [] ==> r[0] == IntTok(ToInt(|b|)) && r[1..] == ByteToks(b)
  {
    if b == [] then [] else PresentToks(b)
  }

  /** The estimate of one sequence is the width of what marshal2 writes for it. */
  lemma BytesSizeExact(b: seq<byte>)
    ensures BytesSize(b) == TotalWidth(BytesToks(b))
  {
    if b != [] {
      TotalWidthAppend([IntTok(ToInt(|b|))], ByteToks(b));
    }
  }

  /** Phase 2 of one sequence: the boolean read back decides whether anything is written. */
  function BytesPhase2(b: seq<byte>, out: seq<Token>, bits: seq<bool>): (r: Result<Emitted, WireError>)
    ensures bits == [] <==> r.Failure?
    ensures r.Success? && !bits[0] ==> r.value == Emitted(out, bits[1..])
    ensures r.Success? && bits[0] ==> r.value == Emitted(out + PresentToks(b), bits[1..])
  {
    if bits == [] then Failure(Underrun)
    else if bits[0] then Success(Emitted(out + PresentToks(b), bits[1..]))
    else Success(Emitted(out, bits[1..]))
  }

  lemma BytesBalance(b: seq<byte>, out: seq<Token>, bits: seq<bool>)
    ensures BytesPhase2(b, out, BytesBits(b) + bits) == Success(Emitted(out + BytesToks(b), bits))
  {
    assert (BytesBits(b) + bits)[1..] == bits;
    if b == [] {
      assert out + [] == out;
    }
  }

  /** The byte-sequence reader gives back a sequence of at most INT_MAX bytes. */
  lemma BytesRoundTrip(b: seq<byte>, toks: seq<Token>, bits: seq<bool>)
    requires |b| <= INT_MAX
    ensures ReadByteSequence(Input(BytesToks(b) + toks, BytesBits(b) + bits)) == Success(Decoded(b, Input(toks, bits)))
  {
    if b == [] {
      assert BytesToks(b) + toks == toks && BytesBits(b) + bits == [false] + bits;
      ReadByteSequenceAbsent(Input(toks, bits));
    } else {
      var n := ToInt(|b|);
      assert n == |b|;
      AppendAssoc([IntTok(n)], ByteToks(b), toks);
      assert BytesBits(b) + bits == [true] + bits;
      ReadByteSequencePresent(n, Input(ByteToks(b) + toks, bits));
      ReadBytesRoundTrip(b, toks, bits);
    }
  }

  // ---------------------------------------------------------------------------
  // The whole object
  // ---------------------------------------------------------------------------

  function Bits1(v: XATransactionIdValue): seq<bool> {
    BytesBits(v.globalTransactionId) + BytesBits(v.branchQualifier)
  }

  function Size1(v: XATransactionIdValue): nat {
    0 + BytesSize(v.globalTransactionId) + BytesSize(v.branchQualifier) + 4
  }

  function Toks2(v: XATransactionIdValue): seq<Token> {
    [IntTok(v.formatId)] + BytesToks(v.globalTransactionId) + BytesToks(v.branchQualifier)
  }

  function Phase2(v: XATransactionIdValue, out: seq<Token>, bits: seq<bool>): Result<Emitted, WireError> {
    var a :- BytesPhase2(v.globalTransactionId, out + [IntTok(v.formatId)], bits);
    BytesPhase2(v.branchQualifier, a.toks, a.bits)
  }

  function Read(src: Input): Result<Decoded<XATransactionIdValue>, WireError> {
    var f :- TakeToken(src);
    if !f.value.IntTok? then Failure(UnexpectedToken)
    else
      var g :- ReadByteSequence(f.rest);
      var q :- ReadByteSequence(g.rest);
      Success(Decoded(XATransactionIdValue(f.value.i, g.value, q.value), q.rest))
  }

  /** The estimate (4 for formatId, size + 4 per non-empty sequence) is what marshal2 writes. */
  lemma EstimateExact(v: XATransactionIdValue)
    ensures Size1(v) == TotalWidth(Toks2(v))
  {
    var g, q := BytesToks(v.globalTransactionId), BytesToks(v.branchQualifier);
    BytesSizeExact(v.globalTransactionId);
    BytesSizeExact(v.branchQualifier);
    TotalWidthAppend([IntTok(v.formatId)], g);
    TotalWidthAppend([IntTok(v.formatId)] + g, q);
  }

  /** marshal2 consumes exactly the two booleans marshal1 wrote and appends Toks2. */
  lemma Balance(v: XATransactionIdValue, out: seq<Token>, bits: seq<bool>)
    ensures Phase2(v, out, Bits1(v) + bits) == Success(Emitted(out + Toks2(v), bits))
  {
    var f, g, q := [IntTok(v.formatId)], BytesToks(v.globalTransactionId), BytesToks(v.branchQualifier);
    var b2 := BytesBits(v.branchQualifier) + bits;
    AppendAssoc(BytesBits(v.globalTransactionId), BytesBits(v.branchQualifier), bits);
    BytesBalance(v.globalTransactionId, out + f, b2);
    BytesBalance(v.branchQualifier, out + f + g, bits);
    AppendAssoc(out, f, g);
    AppendAssoc(out, f + g, q);
  }

  /** unmarshal reads back formatId and both sequences from what the two phases wrote. */
  lemma RoundTrip(v: XATransactionIdValue, toks: seq<Token>, bits: seq<bool>)
    requires |v.globalTransactionId| <= INT_MAX && |v.branchQualifier| <= INT_MAX
    ensures Read(Input(Toks2(v) + toks, Bits1(v) + bits)) == Success(Decoded(v, Input(toks, bits)))
  {
    var f, g, q := [IntTok(v.formatId)], BytesToks(v.globalTransactionId), BytesToks(v.branchQualifier);
    var t2, b2 := q + toks, BytesBits(v.branchQualifier) + bits;
    AppendAssoc(f + g, q, toks);
    AppendAssoc(f, g, t2);
    AppendAssoc(BytesBits(v.globalTransactionId), BytesBits(v.branchQualifier), bits);
    var all := Input(Toks2(v) + toks, Bits1(v) + bits);
    assert TakeToken(all) == Success(Decoded(IntTok(v.formatId), Input(g + t2, all.bits))) by {
      assert all.toks == [IntTok(v.formatId)] + (g + t2);
    }
    BytesRoundTrip(v.globalTransactionId, t2, b2);
    BytesRoundTrip(v.branchQualifier, toks, bits);
  }

  method Marshal1(info: XATransactionId, bs: BooleanStream) returns (rc: nat)
    modifies bs
    ensures bs.bits == old(bs.bits) + Bits1(info.Value()) && rc == Size1(info.Value())
  {
    rc := 0;
    bs.WriteBoolean(info.globalTransactionId != []);
    rc := rc + if info.globalTransactionId == [] then 0 else |info.globalTransactionId| + 4;
    bs.WriteBoolean(info.branchQualifier != []);
    rc := rc + if info.branchQualifier == [] then 0 else |info.branchQualifier| + 4;
    rc := rc + 4;
  }

  method Marshal2(info: XATransactionId, out: DataStream, bs: BooleanStream) returns (r: Outcome<WireError>)
    modifies out, bs
    ensures WriteMatches(r, Phase2(info.Value(), old(out.tokens), old(bs.bits)), out.tokens, bs.bits)
  {
    out.Write(IntTok(info.formatId));
    r := MarshalBytes2(info.globalTransactionId, out, bs);
    if r.Fail? {
      return;
    }
    r := MarshalBytes2(info.branchQualifier, out, bs);
  }

  /** One `if (bs.readBoolean())` block of marshal2: the int length, then the bytes. */
  method MarshalBytes2(b: seq<byte>, out: DataStream, bs: BooleanStream) returns (r: Outcome<WireError>)
    modifies out, bs
    ensures WriteMatches(r, BytesPhase2(b, old(out.tokens), old(bs.bits)), out.tokens, bs.bits)
  {
    var present := bs.ReadBoolean();
    if present.Failure? {
      return Fail(present.error);
    }
    if present.value {
      ghost var before := out.tokens;
      out.Write(IntTok(ToInt(|b|)));
      out.WriteTokens(ByteToks(b));
      AppendAssoc(before, [IntTok(ToInt(|b|))], ByteToks(b));
    }
    r := Pass;
  }

  method Unmarshal(info: XATransactionId, src: DataStream, bs: BooleanStream) returns (r: Outcome<WireError>)
    modifies info, src, bs
    ensures FillMatches(r, Read(Input(old(src.tokens), old(bs.bits))), info.Value(), src.tokens, bs.bits)
  {
    var f := src.Read();
    if f.Failure? {
      return Fail(f.error);
    }
    if !f.value.IntTok? {
      return Fail(UnexpectedToken);
    }
    info.formatId := f.value.i;
    var g := TightUnmarshalByteSequence(src, bs);
    if g.Failure? {
      return Fail(g.error);
    }
    info.globalTransactionId := g.value;
    var q := TightUnmarshalByteSequence(src, bs);
    if q.Failure? {
      return Fail(q.error);
    }
    info.branchQualifier := q.value;
    r := Pass;
  }
}

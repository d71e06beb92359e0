/**
 * The encoding helpers the generated marshallers call but whose bodies are not part of
 * this model: the tight string, long, nested-object, cached-object, broker-error and
 * object-array encoders, the byte-sequence reader, and their loose counterparts.
 *
 * Each helper is an abstract write/read pair. In tight mode phase 1 writes presence
 * booleans and returns a size estimate, phase 2 consumes exactly those booleans and writes
 * the value's tokens, and the reader consumes the same booleans and tokens and gives the
 * value back. The estimate of every helper is the width of what its phase 2 writes.
 * Cached objects are written like nested ones with their own token kind; the marshal and
 * unmarshal cache tables are not modelled.
 */
module Encoders {
  import opened Common
  import opened Wire

  // ---------------------------------------------------------------------------
  // Generic shapes of the method contracts
  // ---------------------------------------------------------------------------

  /** A reading method's result and the streams it leaves agree with a read function. */
  predicate ReadMatches<T(==)>(r: Result<T, WireError>, spec: Result<Decoded<T>, WireError>,
                           toks: seq<Token>, bits: seq<bool>)
  {
    && (spec.Failure? ==> r == Failure(spec.error))
    && (spec.Success? ==> r == Success(spec.value.value) && toks == spec.value.rest.toks && bits == spec.value.rest.bits)
  }

  /**
   * A phase-2 method's outcome and the streams it leaves agree with a phase-2 function.
   * Phase-2 functions take the output written so far and give the whole output after.
   */
  predicate WriteMatches(r: Outcome<WireError>, spec: Result<Emitted, WireError>,
                         toks: seq<Token>, bits: seq<bool>)
  {
    && (spec.Failure? ==> r == Fail(spec.error))
    && (spec.Success? ==> r == Pass && toks == spec.value.toks && bits == spec.value.bits)
  }

  /** An unmarshal method's outcome and the object it filled agree with a read function. */
  predicate FillMatches<T(==)>(r: Outcome<WireError>, spec: Result<Decoded<T>, WireError>, value: T,
                               toks: seq<Token>, bits: seq<bool>)
  {
    && (spec.Failure? ==> r == Fail(spec.error))
    && (spec.Success? ==> r == Pass && value == spec.value.value && toks == spec.value.rest.toks && bits == spec.value.rest.bits)
  }

  /** Phase 2 of a helper that consumes one boolean and writes `toks` after `out`. */
  function ConsumeOne(out: seq<Token>, bits: seq<bool>, toks: seq<Token>): (r: Result<Emitted, WireError>)
    ensures bits == [] <==> r.Failure?
    ensures r.Success? ==> r.value == Emitted(out + toks, bits[1..])
  {
    if bits == [] then Failure(Underrun) else Success(Emitted(out + toks, bits[1..]))
  }

  /** Re-associating a concatenation, step by step where the solver would search. */
  lemma AppendAssoc<T>(a: seq<T>, b: seq<T>, c: seq<T>)
    ensures (a + b) + c == a + (b + c)
  {
  }

  // ---------------------------------------------------------------------------
  // Strings (tight)
  // ---------------------------------------------------------------------------

  function StringBits(s: Option<string>): seq<bool> { [s.Some?] }

  function StringToks(s: Option<string>): seq<Token> {
    if s.Some? then [StrTok(s.value)] else []
  }

  function StringSize(s: Option<string>): nat {
    if s.Some? then 2 + |s.value| else 0
  }

  lemma StringSizeExact(s: Option<string>)
    ensures StringSize(s) == TotalWidth(StringToks(s))
  {
  }

  function StringPhase2(s: Option<string>, out: seq<Token>, bits: seq<bool>): Result<Emitted, WireError> {
    ConsumeOne(out, bits, StringToks(s))
  }

  function ReadString(src: Input): Result<Decoded<Option<string>>, WireError> {
    var present :- TakeBit(src);
    if !present.value then Success(Decoded(None, present.rest))
    else
      var t :- TakeToken(present.rest);
      if t.value.StrTok? then Success(Decoded(Some(t.value.str), t.rest)) else Failure(UnexpectedToken)
  }

  lemma StringBalance(s: Option<string>, out: seq<Token>, bits: seq<bool>)
    ensures StringPhase2(s, out, StringBits(s) + bits) == Success(Emitted(out + StringToks(s), bits))
  {
    assert (StringBits(s) + bits)[1..] == bits;
  }

  lemma StringRoundTrip(s: Option<string>, toks: seq<Token>, bits: seq<bool>)
    ensures ReadString(Input(StringToks(s) + toks, StringBits(s) + bits)) == Success(Decoded(s, Input(toks, bits)))
  {
    assert (StringBits(s) + bits)[1..] == bits;
    if s.Some? {
      assert (StringToks(s) + toks)[1..] == toks;
    } else {
      assert StringToks(s) + toks == toks;
    }
  }

  method TightMarshalString1(s: Option<string>, bs: BooleanStream) returns (rc: nat)
    modifies bs
    ensures bs.bits == old(bs.bits) + StringBits(s) && rc == StringSize(s)
  {
    bs.WriteBoolean(s.Some?);
    rc := if s.Some? then 2 + |s.value| else 0;
  }

  method TightMarshalString2(s: Option<string>, out: DataStream, bs: BooleanStream) returns (r: Outcome<WireError>)
    modifies out, bs
    ensures WriteMatches(r, StringPhase2(s, old(out.tokens), old(bs.bits)), out.tokens, bs.bits)
  {
    var b := bs.ReadBoolean();
    if b.Failure? {
      return Fail(b.error);
    }
    if s.Some? {
      out.Write(StrTok(s.value));
    }
    r := Pass;
  }

  method TightUnmarshalString(src: DataStream, bs: BooleanStream) returns (r: Result<Option<string>, WireError>)
    modifies src, bs
    ensures ReadMatches(r, ReadString(Input(old(src.tokens), old(bs.bits))), src.tokens, bs.bits)
  {
    var present :- bs.ReadBoolean();
    if !present {
      return Success(None);
    }
    var t :- src.Read();
    if !t.StrTok? {
      return Failure(UnexpectedToken);
    }
    r := Success(Some(t.str));
  }

  // ---------------------------------------------------------------------------
  // Longs (tight): a zero long is carried by its boolean alone
  // ---------------------------------------------------------------------------

  function LongBits(l: int): seq<bool> { [l != 0] }

  function LongToks(l: int): seq<Token> {
    if l != 0 then [LongTok(l)] else []
  }

  function LongSize(l: int): nat {
    if l != 0 then 8 else 0
  }

  lemma LongSizeExact(l: int)
    ensures LongSize(l) == TotalWidth(LongToks(l))
  {
  }

  function LongPhase2(l: int, out: seq<Token>, bits: seq<bool>): Result<Emitted, WireError> {
    ConsumeOne(out, bits, LongToks(l))
  }

  function ReadLong(src: Input): Result<Decoded<int>, WireError> {
    var present :- TakeBit(src);
    if !present.value then Success(Decoded(0, present.rest))
    else
      var t :- TakeToken(present.rest);
      if t.value.LongTok? then Success(Decoded(t.value.l, t.rest)) else Failure(UnexpectedToken)
  }

  lemma LongBalance(l: int, out: seq<Token>, bits: seq<bool>)
    ensures LongPhase2(l, out, LongBits(l) + bits) == Success(Emitted(out + LongToks(l), bits))
  {
    assert (LongBits(l) + bits)[1..] == bits;
  }

  lemma LongRoundTrip(l: int, toks: seq<Token>, bits: seq<bool>)
    ensures ReadLong(Input(LongToks(l) + toks, LongBits(l) + bits)) == Success(Decoded(l, Input(toks, bits)))
  {
    assert (LongBits(l) + bits)[1..] == bits;
    if l != 0 {
      assert (LongToks(l) + toks)[1..] == toks;
    } else {
      assert LongToks(l) + toks == toks;
    }
  }

  method TightMarshalLong1(l: int, bs: BooleanStream) returns (rc: nat)
    modifies bs
    ensures bs.bits == old(bs.bits) + LongBits(l) && rc == LongSize(l)
  {
    bs.WriteBoolean(l != 0);
    rc := if l != 0 then 8 else 0;
  }

  method TightMarshalLong2(l: int, out: DataStream, bs: BooleanStream) returns (r: Outcome<WireError>)
    modifies out, bs
    ensures WriteMatches(r, LongPhase2(l, old(out.tokens), old(bs.bits)), out.tokens, bs.bits)
  {
    var b := bs.ReadBoolean();
    if b.Failure? {
      return Fail(b.error);
    }
    if l != 0 {
      out.Write(LongTok(l));
    }
    r := Pass;
  }

  method TightUnmarshalLong(src: DataStream, bs: BooleanStream) returns (r: Result<int, WireError>)
    modifies src, bs
    ensures ReadMatches(r, ReadLong(Input(old(src.tokens), old(bs.bits))), src.tokens, bs.bits)
  {
    var present :- bs.ReadBoolean();
    if !present {
      return Success(0);
    }
    var t :- src.Read();
    if !t.LongTok? {
      return Failure(UnexpectedToken);
    }
    r := Success(t.l);
  }

  // ---------------------------------------------------------------------------
  // References: nested objects, cached objects and broker errors (tight)
  // ---------------------------------------------------------------------------

  datatype RefKind = Nested | Cached | BrokerErrorRef

  function RefTok(kind: RefKind, d: DataStructure): Token {
    match kind
    case Nested => NestedTok(d)
    case Cached => CachedTok(d)
    case BrokerErrorRef => ErrorTok(d)
  }

  predicate IsRefTok(kind: RefKind, t: Token) {
    match kind
    case Nested => t.NestedTok?
    case Cached => t.CachedTok?
    case BrokerErrorRef => t.ErrorTok?
  }

  function RefBits(d: Ref): seq<bool> { [d.Some?] }

  function RefToks(kind: RefKind, d: Ref): seq<Token> {
    if d.Some? then [RefTok(kind, d.value)] else []
  }

  function RefSize(d: Ref): nat {
    if d.Some? then StructureWidth(d.value) else 0
  }

  lemma RefSizeExact(kind: RefKind, d: Ref)
    ensures RefSize(d) == TotalWidth(RefToks(kind, d))
  {
  }

  function RefPhase2(kind: RefKind, d: Ref, out: seq<Token>, bits: seq<bool>): Result<Emitted, WireError> {
    ConsumeOne(out, bits, RefToks(kind, d))
  }

  function ReadRef(kind: RefKind, src: Input): Result<Decoded<Ref>, WireError> {
    var present :- TakeBit(src);
    if !present.value then Success(Decoded(None, present.rest))
    else
      var t :- TakeToken(present.rest);
      if IsRefTok(kind, t.value) then Success(Decoded(Some(t.value.d), t.rest)) else Failure(UnexpectedToken)
  }

  lemma RefBalance(kind: RefKind, d: Ref, out: seq<Token>, bits: seq<bool>)
    ensures RefPhase2(kind, d, out, RefBits(d) + bits) == Success(Emitted(out + RefToks(kind, d), bits))
  {
    assert (RefBits(d) + bits)[1..] == bits;
  }

  lemma RefRoundTrip(kind: RefKind, d: Ref, toks: seq<Token>, bits: seq<bool>)
    ensures ReadRef(kind, Input(RefToks(kind, d) + toks, RefBits(d) + bits)) == Success(Decoded(d, Input(toks, bits)))
  {
    assert (RefBits(d) + bits)[1..] == bits;
    if d.Some? {
      assert (RefToks(kind, d) + toks)[1..] == toks;
    } else {
      assert RefToks(kind, d) + toks == toks;
    }
  }

  method TightMarshalRef1(d: Ref, bs: BooleanStream) returns (rc: nat)
    modifies bs
    ensures bs.bits == old(bs.bits) + RefBits(d) && rc == RefSize(d)
  {
    bs.WriteBoolean(d.Some?);
    rc := if d.Some? then StructureWidth(d.value) else 0;
  }

  method TightMarshalRef2(kind: RefKind, d: Ref, out: DataStream, bs: BooleanStream) returns (r: Outcome<WireError>)
    modifies out, bs
    ensures WriteMatches(r, RefPhase2(kind, d, old(out.tokens), old(bs.bits)), out.tokens, bs.bits)
  {
    var b := bs.ReadBoolean();
    if b.Failure? {
      return Fail(b.error);
    }
    if d.Some? {
      out.Write(RefTok(kind, d.value));
    }
    r := Pass;
  }

  method TightUnmarshalRef(kind: RefKind, src: DataStream, bs: BooleanStream) returns (r: Result<Ref, WireError>)
    modifies src, bs
    ensures ReadMatches(r, ReadRef(kind, Input(old(src.tokens), old(bs.bits))), src.tokens, bs.bits)
  {
    var present :- bs.ReadBoolean();
    if !present {
      return Success(None);
    }
    var t :- src.Read();
    if !IsRefTok(kind, t) {
      return Failure(UnexpectedToken);
    }
    r := Success(Some(t.d));
  }

  // ---------------------------------------------------------------------------
  // Object arrays (tight): a presence boolean, then a short count and the nested elements
  // ---------------------------------------------------------------------------

  /** The booleans of the elements, in order (built from the back, as a loop appends them). */
  function ElementsBits(xs: seq<Ref>): seq<bool> {
    if xs == [] then [] else ElementsBits(xs[..|xs| - 1]) + RefBits(xs[|xs| - 1])
  }

  function ElementsToks(xs: seq<Ref>): seq<Token> {
    if xs == [] then [] else ElementsToks(xs[..|xs| - 1]) + RefToks(Nested, xs[|xs| - 1])
  }

  function ElementsSize(xs: seq<Ref>): nat {
    if xs == [] then 0 else ElementsSize(xs[..|xs| - 1]) + RefSize(xs[|xs| - 1])
  }

  lemma {:induction false} ElementsFront(x: Ref, xs: seq<Ref>)
    ensures ElementsBits([x] + xs) == RefBits(x) + ElementsBits(xs)
    ensures ElementsToks([x] + xs) == RefToks(Nested, x) + ElementsToks(xs)
  {
    if xs != [] {
      var ys := [x] + xs;
      assert ys[..|ys| - 1] == [x] + xs[..|xs| - 1];
      ElementsFront(x, xs[..|xs| - 1]);
    } else {
      assert [x] + xs == [x];
      assert [x][..0] == [];
    }
  }

  lemma {:induction false} ElementsSizeExact(xs: seq<Ref>)
    ensures ElementsSize(xs) == TotalWidth(ElementsToks(xs))
  {
    if xs != [] {
      ElementsSizeExact(xs[..|xs| - 1]);
      RefSizeExact(Nested, xs[|xs| - 1]);
      TotalWidthAppend(ElementsToks(xs[..|xs| - 1]), RefToks(Nested, xs[|xs| - 1]));
    }
  }

  function ArrayBits(a: Option<seq<Ref>>): seq<bool> {
    if a.None? then [false] else [true] + ElementsBits(a.value)
  }

  function ArrayToks(a: Option<seq<Ref>>): seq<Token> {
    if a.None? then [] else [ShortTok(ToShort(|a.value|))] + ElementsToks(a.value)
  }

  function ArraySize(a: Option<seq<Ref>>): nat {
    if a.None? then 0 else 2 + ElementsSize(a.value)
  }

  lemma ArraySizeExact(a: Option<seq<Ref>>)
    ensures ArraySize(a) == TotalWidth(ArrayToks(a))
  {
    if a.Some? {
      ElementsSizeExact(a.value);
      TotalWidthAppend([ShortTok(ToShort(|a.value|))], ElementsToks(a.value));
    }
  }

  /** Phase 2 of the elements: each consumes its own boolean. */
  function ElementsPhase2(xs: seq<Ref>, out: seq<Token>, bits: seq<bool>): Result<Emitted, WireError> {
    if |bits| < |xs| then Failure(Underrun)
    else Success(Emitted(out + ElementsToks(xs), bits[|xs|..]))
  }

  function ArrayPhase2(a: Option<seq<Ref>>, out: seq<Token>, bits: seq<bool>): Result<Emitted, WireError> {
    if bits == [] then Failure(Underrun)
    else if a.None? then Success(Emitted(out, bits[1..]))
    else ElementsPhase2(a.value, out + [ShortTok(ToShort(|a.value|))], bits[1..])
  }

  lemma {:induction false} ElementsBitsLength(xs: seq<Ref>)
    ensures |ElementsBits(xs)| == |xs|
  {
    if xs != [] {
      ElementsBitsLength(xs[..|xs| - 1]);
    }
  }

  lemma ArrayBalance(a: Option<seq<Ref>>, out: seq<Token>, bits: seq<bool>)
    ensures ArrayPhase2(a, out, ArrayBits(a) + bits) == Success(Emitted(out + ArrayToks(a), bits))
  {
    var all := ArrayBits(a) + bits;
    if a.Some? {
      ElementsBitsLength(a.value);
      assert all[1..] == ElementsBits(a.value) + bits;
      assert (ElementsBits(a.value) + bits)[|a.value|..] == bits;
      AppendAssoc(out, [ShortTok(ToShort(|a.value|))], ElementsToks(a.value));
    } else {
      assert all[1..] == bits;
      assert out + ArrayToks(a) == out;
    }
  }

  /** Reading `count` nested objects in order (the unmarshal loop `for i < size`). */
  function ReadElements(count: int, src: Input): Result<Decoded<seq<Ref>>, WireError>
    decreases count
  {
    if count <= 0 then Success(Decoded([], src))
    else
      var first :- ReadRef(Nested, src);
      var rest :- ReadElements(count - 1, first.rest);
      Success(Decoded([first.value] + rest.value, rest.rest))
  }

  lemma {:induction false} ReadElementsRoundTrip(xs: seq<Ref>, toks: seq<Token>, bits: seq<bool>)
    ensures ReadElements(|xs|, Input(ElementsToks(xs) + toks, ElementsBits(xs) + bits)) == Success(Decoded(xs, Input(toks, bits)))
  {
    if xs != [] {
      var x, tail := xs[0], xs[1..];
      assert xs == [x] + tail;
      ElementsFront(x, tail);
      assert ElementsToks(xs) + toks == RefToks(Nested, x) + (ElementsToks(tail) + toks);
      assert ElementsBits(xs) + bits == RefBits(x) + (ElementsBits(tail) + bits);
      RefRoundTrip(Nested, x, ElementsToks(tail) + toks, ElementsBits(tail) + bits);
      ReadElementsRoundTrip(tail, toks, bits);
    } else {
      assert ElementsToks(xs) + toks == toks && ElementsBits(xs) + bits == bits;
    }
  }

  /** The inline object-array read of the unmarshal code: boolean, short count, elements. */
  function ReadArray(src: Input): Result<Decoded<Option<seq<Ref>>>, WireError> {
    var present :- TakeBit(src);
    if !present.value then Success(Decoded(None, present.rest))
    else
      var elems :- ReadCounted(present.rest);
      Success(Decoded(Some(elems.value), elems.rest))
  }

  /** The short count of a present array, then that many nested objects. */
  function ReadCounted(src: Input): Result<Decoded<seq<Ref>>, WireError> {
    var t :- TakeToken(src);
    if !t.value.ShortTok? then Failure(UnexpectedToken)
    else ReadElements(t.value.s, t.rest)
  }

  lemma ArrayRoundTrip(a: Option<seq<Ref>>, toks: seq<Token>, bits: seq<bool>)
    requires a.Some? ==> |a.value| <= SHORT_MAX
    ensures ReadArray(Input(ArrayToks(a) + toks, ArrayBits(a) + bits)) == Success(Decoded(a, Input(toks, bits)))
  {
    if a.Some? {
      var xs := a.value;
      AppendAssoc([true], ElementsBits(xs), bits);
      ReadArrayPresent(Input(ArrayToks(a) + toks, ElementsBits(xs) + bits));
      CountedRoundTrip(xs, toks, bits);
    } else {
      assert ArrayToks(a) + toks == toks;
      ReadArrayAbsent(Input(toks, bits));
    }
  }

  /** A false presence boolean reads back NULL and consumes no token. */
  lemma ReadArrayAbsent(rest: Input)
    ensures ReadArray(Input(rest.toks, [false] + rest.bits)) == Success(Decoded(None, rest))
  {
    assert ([false] + rest.bits)[1..] == rest.bits;
  }

  /** A true presence boolean reads a counted sequence of elements. */
  lemma ReadArrayPresent(rest: Input)
    ensures ReadArray(Input(rest.toks, [true] + rest.bits)) ==
      match ReadCounted(rest)
      case Success(d) => Success(Decoded(Some(d.value), d.rest))
      case Failure(e) => Failure(e)
  {
    assert ([true] + rest.bits)[1..] == rest.bits;
  }

  lemma CountedRoundTrip(xs: seq<Ref>, toks: seq<Token>, bits: seq<bool>)
    requires |xs| <= SHORT_MAX
    ensures ReadCounted(Input([ShortTok(ToShort(|xs|))] + ElementsToks(xs) + toks, ElementsBits(xs) + bits)) == Success(Decoded(xs, Input(toks, bits)))
  {
    var n := ToShort(|xs|);
    var rest := Input(ElementsToks(xs) + toks, ElementsBits(xs) + bits);
    AppendAssoc([ShortTok(n)], ElementsToks(xs), toks);
    ReadCountedShort(n, rest);
    ReadElementsRoundTrip(xs, toks, bits);
  }

  /** A short token at the front is taken as the count of the elements after it. */
  lemma ReadCountedShort(n: int, rest: Input)
    ensures ReadCounted(Input([ShortTok(n)] + rest.toks, rest.bits)) == ReadElements(n, rest)
  {
    var src := Input([ShortTok(n)] + rest.toks, rest.bits);
    assert src.toks[1..] == rest.toks;
  }

  method TightMarshalObjectArray1(a: Option<seq<Ref>>, bs: BooleanStream) returns (rc: nat)
    modifies bs
    ensures bs.bits == old(bs.bits) + ArrayBits(a) && rc == ArraySize(a)
  {
    if a.None? {
      bs.WriteBoolean(false);
      return 0;
    }
    var xs := a.value;
    bs.WriteBoolean(true);
    rc := 2;
    var i := 0;
    while i < |xs|
      invariant 0 <= i <= |xs|
      invariant bs.bits == old(bs.bits) + [true] + ElementsBits(xs[..i])
      invariant rc == 2 + ElementsSize(xs[..i])
    {
      var n := TightMarshalRef1(xs[i], bs);
      assert xs[..i + 1][..i] == xs[..i];
      rc := rc + n;
      i := i + 1;
    }
    assert xs[..i] == xs;
  }

  method TightMarshalObjectArray2(a: Option<seq<Ref>>, out: DataStream, bs: BooleanStream) returns (r: Outcome<WireError>)
    modifies out, bs
    ensures WriteMatches(r, ArrayPhase2(a, old(out.tokens), old(bs.bits)), out.tokens, bs.bits)
  {
    var b := bs.ReadBoolean();
    if b.Failure? {
      return Fail(b.error);
    }
    if a.None? {
      return Pass;
    }
    var xs := a.value;
    ghost var bits1 := bs.bits;
    out.Write(ShortTok(ToShort(|xs|)));
    ghost var toks1 := out.tokens;
    var i := 0;
    while i < |xs|
      invariant 0 <= i <= |xs|
      invariant i <= |bits1| && bs.bits == bits1[i..]
      invariant out.tokens == toks1 + ElementsToks(xs[..i])
    {
      var step := TightMarshalRef2(Nested, xs[i], out, bs);
      if step.Fail? {
        return Fail(step.error);
      }
      assert xs[..i + 1][..i] == xs[..i];
      i := i + 1;
    }
    assert xs[..i] == xs;
    r := Pass;
  }

  /** The inline read loop of the generated unmarshal code for an object array. */
  method TightUnmarshalObjectArray(src: DataStream, bs: BooleanStream) returns (r: Result<Option<seq<Ref>>, WireError>)
    modifies src, bs
    ensures ReadMatches(r, ReadArray(Input(old(src.tokens), old(bs.bits))), src.tokens, bs.bits)
  {
    var present :- bs.ReadBoolean();
    if !present {
      return Success(None);
    }
    var t :- src.Read();
    if !t.ShortTok? {
      return Failure(UnexpectedToken);
    }
    var size := t.s;
    ghost var start := Input(src.tokens, bs.bits);
    var value: seq<Ref> := [];
    PrependEmpty(ReadElements(size, start));
    var i := 0;
    while i < size
      invariant (size <= 0 ==> i == 0) && (size > 0 ==> 0 <= i <= size)
      invariant ReadElements(size, start) == Prepend(value, ReadElements(size - i, Input(src.tokens, bs.bits)))
      decreases size - i
    {
      var e := TightUnmarshalRef(Nested, src, bs);
      if e.Failure? {
        return Failure(e.error);
      }
      PrependStep(value, e.value, ReadElements(size - i - 1, Input(src.tokens, bs.bits)));
      value := value + [e.value];
      i := i + 1;
    }
    assert value + [] == value;
    r := Success(Some(value));
  }

  // ---------------------------------------------------------------------------
  // Byte sequences: the reader used by XATransactionId (presence, int length, bytes)
  // ---------------------------------------------------------------------------

  function ByteToks(b: seq<byte>): (r: seq<Token>)
    ensures |r| == |b| && TotalWidth(r) == |b|
    ensures forall i :: 0 <= i < |b| ==> r[i] == ByteTok(b[i])
  {
    if b == [] then []
    else
      var rest := ByteToks(b[1..]);
      assert ([ByteTok(b[0])] + rest)[1..] == rest;
      [ByteTok(b[0])] + rest
  }

  function ReadBytes(count: int, src: Input): Result<Decoded<seq<byte>>, WireError>
    decreases count
  {
    if count <= 0 then Success(Decoded([], src))
    else
      var t :- TakeToken(src);
      if !t.value.ByteTok? then Failure(UnexpectedToken)
      else
        var rest :- ReadBytes(count - 1, t.rest);
        Success(Decoded([t.value.b] + rest.value, rest.rest))
  }

  lemma {:induction false} ReadBytesRoundTrip(b: seq<byte>, toks: seq<Token>, bits: seq<bool>)
    ensures ReadBytes(|b|, Input(ByteToks(b) + toks, bits)) == Success(Decoded(b, Input(toks, bits)))
  {
    if b != [] {
      assert ByteToks(b) + toks == [ByteTok(b[0])] + (ByteToks(b[1..]) + toks);
      ReadBytesRoundTrip(b[1..], toks, bits);
      assert [b[0]] + b[1..] == b;
    } else {
      assert ByteToks(b) + toks == toks;
    }
  }

  function ReadByteSequence(src: Input): Result<Decoded<seq<byte>>, WireError> {
    var present :- TakeBit(src);
    if !present.value then Success(Decoded([], present.rest))
    else
      var t :- TakeToken(present.rest);
      if !t.value.IntTok? then Failure(UnexpectedToken)
      else ReadBytes(t.value.i, t.rest)
  }

  /** A false presence boolean reads back the empty sequence and consumes no token. */
  lemma ReadByteSequenceAbsent(rest: Input)
    ensures ReadByteSequence(Input(rest.toks, [false] + rest.bits)) == Success(Decoded([], rest))
  {
    assert ([false] + rest.bits)[1..] == rest.bits;
  }

  /** A true presence boolean reads an int length, then that many bytes. */
  lemma ReadByteSequencePresent(n: int, rest: Input)
    ensures ReadByteSequence(Input([IntTok(n)] + rest.toks, [true] + rest.bits)) == ReadBytes(n, rest)
  {
    assert ([true] + rest.bits)[1..] == rest.bits;
    assert ([IntTok(n)] + rest.toks)[1..] == rest.toks;
  }

  method TightUnmarshalByteSequence(src: DataStream, bs: BooleanStream) returns (r: Result<seq<byte>, WireError>)
    modifies src, bs
    ensures ReadMatches(r, ReadByteSequence(Input(old(src.tokens), old(bs.bits))), src.tokens, bs.bits)
  {
    var present :- bs.ReadBoolean();
    if !present {
      return Success([]);
    }
    var t :- src.Read();
    if !t.IntTok? {
      return Failure(UnexpectedToken);
    }
    var size := t.i;
    ghost var start := Input(src.tokens, bs.bits);
    var value: seq<byte> := [];
    PrependEmpty(ReadBytes(size, start));
    var i := 0;
    while i < size
      invariant (size <= 0 ==> i == 0) && (size > 0 ==> 0 <= i <= size)
      invariant bs.bits == start.bits
      invariant ReadBytes(size, start) == Prepend(value, ReadBytes(size - i, Input(src.tokens, bs.bits)))
      decreases size - i
    {
      var b := src.Read();
      if b.Failure? {
        return Failure(b.error);
      }
      if !b.value.ByteTok? {
        return Failure(UnexpectedToken);
      }
      PrependStep(value, b.value.b, ReadBytes(size - i - 1, Input(src.tokens, bs.bits)));
      value := value + [b.value.b];
      i := i + 1;
    }
    assert value + [] == value;
    r := Success(value);
  }

  /** A read that succeeded after `prefix` had already been read. */
  function Prepend<T>(prefix: seq<T>, r: Result<Decoded<seq<T>>, WireError>): Result<Decoded<seq<T>>, WireError> {
    if r.Failure? then r else Success(Decoded(prefix + r.value.value, r.value.rest))
  }

  lemma PrependEmpty<T>(r: Result<Decoded<seq<T>>, WireError>)
    ensures Prepend([], r) == r
  {
    if r.Success? {
      assert [] + r.value.value == r.value.value;
    }
  }

  lemma PrependStep<T>(prefix: seq<T>, x: T, r: Result<Decoded<seq<T>>, WireError>)
    ensures Prepend(prefix, Prepend([x], r)) == Prepend(prefix + [x], r)
  {
    if r.Success? {
      assert prefix + ([x] + r.value.value) == (prefix + [x]) + r.value.value;
    }
  }

  // ---------------------------------------------------------------------------
  // Loose encoding: presence written inline as a boolean token, no BooleanStream
  // ---------------------------------------------------------------------------

  function LooseRefToks(kind: RefKind, d: Ref): seq<Token> {
    [BoolTok(d.Some?)] + RefToks(kind, d)
  }

  function LooseReadRef(kind: RefKind, src: Input): Result<Decoded<Ref>, WireError> {
    var flag :- TakeToken(src);
    if !flag.value.BoolTok? then Failure(UnexpectedToken)
    else if !flag.value.flag then Success(Decoded(None, flag.rest))
    else
      var t :- TakeToken(flag.rest);
      if IsRefTok(kind, t.value) then Success(Decoded(Some(t.value.d), t.rest)) else Failure(UnexpectedToken)
  }

  lemma LooseRefRoundTrip(kind: RefKind, d: Ref, toks: seq<Token>, bits: seq<bool>)
    ensures LooseReadRef(kind, Input(LooseRefToks(kind, d) + toks, bits)) == Success(Decoded(d, Input(toks, bits)))
  {
    var all := LooseRefToks(kind, d) + toks;
    assert all[0] == BoolTok(d.Some?);
    assert all[1..] == RefToks(kind, d) + toks;
    if d.Some? {
      assert all[1..][1..] == toks;
    }
  }

  method LooseMarshalRef(kind: RefKind, d: Ref, out: DataStream)
    modifies out
    ensures out.tokens == old(out.tokens) + LooseRefToks(kind, d)
  {
    out.Write(BoolTok(d.Some?));
    if d.Some? {
      out.Write(RefTok(kind, d.value));
    }
  }

  method LooseUnmarshalRef(kind: RefKind, src: DataStream) returns (r: Result<Ref, WireError>)
    modifies src
    ensures ReadMatches(r, LooseReadRef(kind, Input(old(src.tokens), [])), src.tokens, [])
  {
    var flag :- src.Read();
    if !flag.BoolTok? {
      return Failure(UnexpectedToken);
    }
    if !flag.flag {
      return Success(None);
    }
    var t :- src.Read();
    if !IsRefTok(kind, t) {
      return Failure(UnexpectedToken);
    }
    r := Success(Some(t.d));
  }
}

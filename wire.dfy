/**
 * The two streams every OpenWire marshaller works on.
 *
 * The data stream is modelled as a sequence of tokens (one per primitive write such as
 * writeInt or writeShort, and one per value written by an encoding helper whose body is
 * not part of this model), read back from the front. The BooleanStream is a sequence of
 * booleans: writeBoolean appends, readBoolean pops the front; the packing of eight
 * booleans per byte is not modelled.
 */
module Wire {
  import opened Common

  const INT_MIN: int := -0x8000_0000
  const INT_MAX: int := 0x7fff_ffff
  const SHORT_MAX: int := 0x7fff


  /** The value writeShort puts on the wire for `n`: its low 16 bits, read back signed. */
  function ToShort(n: int): (s: int)
    ensures -SHORT_MAX - 1 <= s <= SHORT_MAX
    ensures (n - s) % 0x1_0000 == 0
    ensures 0 <= n <= SHORT_MAX ==> s == n
  {
    var low := n % 0x1_0000;
    if low <= SHORT_MAX then low else low - 0x1_0000
  }

  /** The value writeInt puts on the wire for `n`: its low 32 bits, read back signed. */
  function ToInt(n: int): (s: int)
    ensures INT_MIN <= s <= INT_MAX
    ensures (n - s) % 0x1_0000_0000 == 0
    ensures INT_MIN <= n <= INT_MAX ==> s == n
  {
    var low := n % 0x1_0000_0000;
    if low <= INT_MAX then low else low - 0x1_0000_0000
  }

  /**
   * A data structure reached through a pointer field (a BrokerId, a destination, a
   * MessageAck, a broker error, ...). Its own marshalling is done by another marshaller
   * through the nested, cached or broker-error helpers, so it is opaque here.
   */
  datatype DataStructure = DataStructure(typeTag: int, body: seq<int>)

  /** A pointer field: None is NULL. */
  type Ref = Option<DataStructure>

  datatype Token =
    | IntTok(i: int)                 // writeInt / readInt
    | ShortTok(s: int)               // writeShort / readShort
    | ByteTok(b: byte)               // one byte of write(bytes, n)
    | BoolTok(flag: bool)            // a boolean written inline (loose encoding)
    | LongTok(l: int)                // a long written by the long helper
    | StrTok(str: string)              // a string written by the string helper
    | NestedTok(d: DataStructure)    // a nested object written by the nested helper
    | CachedTok(d: DataStructure)    // a cached object written by the cached helper
    | ErrorTok(d: DataStructure)     // a broker error written by the broker-error helper

  /** Bytes a data structure occupies on the wire: its type byte plus its body. */
  function StructureWidth(d: DataStructure): nat {
    1 + |d.body|
  }

  /** Bytes a token occupies in the data stream. */
  function Width(t: Token): nat {
    match t
    case IntTok(_) => 4
    case ShortTok(_) => 2
    case ByteTok(_) => 1
    case BoolTok(_) => 1
    case LongTok(_) => 8
    case StrTok(s) => 2 + |s|
    case NestedTok(d) => StructureWidth(d)
    case CachedTok(d) => StructureWidth(d)
    case ErrorTok(d) => StructureWidth(d)
  }

  function TotalWidth(ts: seq<Token>): nat {
    if ts == [] then 0 else Width(ts[0]) + TotalWidth(ts[1..])
  }

  lemma {:induction false} TotalWidthAppend(a: seq<Token>, b: seq<Token>)
    ensures TotalWidth(a + b) == TotalWidth(a) + TotalWidth(b)
  {
    if a != [] {
      assert (a + b)[1..] == a[1..] + b;
      TotalWidthAppend(a[1..], b);
    } else {
      assert a + b == b;
    }
  }

  /** How a read can fail: the stream ended, or held something else than was expected. */
  datatype WireError = Underrun | UnexpectedToken

  /** What is left to read: data-stream tokens and BooleanStream booleans. */
  datatype Input = Input(toks: seq<Token>, bits: seq<bool>)

  /** A value read, and what is left to read after it. */
  datatype Decoded<+T> = Decoded(value: T, rest: Input)

  /** What a phase-2 step wrote to the data stream, and the booleans left after it. */
  datatype Emitted = Emitted(toks: seq<Token>, bits: seq<bool>)

  /** readBoolean on the BooleanStream part of an input. */
  function TakeBit(src: Input): (r: Result<Decoded<bool>, WireError>)
    ensures src.bits == [] <==> r.Failure?
    ensures r.Success? ==> [r.value.value] + r.value.rest.bits == src.bits && r.value.rest.toks == src.toks
  {
    if src.bits == [] then Failure(Underrun) else Success(Decoded(src.bits[0], Input(src.toks, src.bits[1..])))
  }

  /** The next data-stream token of an input. */
  function TakeToken(src: Input): (r: Result<Decoded<Token>, WireError>)
    ensures src.toks == [] <==> r.Failure?
    ensures r.Success? ==> [r.value.value] + r.value.rest.toks == src.toks && r.value.rest.bits == src.bits
  {
    if src.toks == [] then Failure(Underrun) else Success(Decoded(src.toks[0], Input(src.toks[1..], src.bits)))
  }

  class BooleanStream {
    var bits: seq<bool>

    constructor (initial: seq<bool>)
      ensures bits == initial
    {
      bits := initial;
    }

    method WriteBoolean(b: bool)
      modifies this
      ensures bits == old(bits) + [b]
    {
      bits := bits + [b];
    }

    method ReadBoolean() returns (r: Result<bool, WireError>)
      modifies this
      ensures old(bits) == [] ==> r == Failure(Underrun) && bits == old(bits)
      ensures old(bits) != [] ==> r == Success(old(bits)[0]) && bits == old(bits)[1..]
    {
      if bits == [] {
        return Failure(Underrun);
      }
      r := Success(bits[0]);
      bits := bits[1..];
    }
  }

  class DataStream {
    var tokens: seq<Token>

    constructor (initial: seq<Token>)
      ensures tokens == initial
    {
      tokens := initial;
    }

    method Write(t: Token)
      modifies this
      ensures tokens == old(tokens) + [t]
    {
      tokens := tokens + [t];
    }

    /** A block write, such as write(bytes, n): the tokens in order. */
    method WriteTokens(ts: seq<Token>)
      modifies this
      ensures tokens == old(tokens) + ts
    {
      tokens := tokens + ts;
    }

    method Read() returns (r: Result<Token, WireError>)
      modifies this
      ensures old(tokens) == [] ==> r == Failure(Underrun) && tokens == old(tokens)
      ensures old(tokens) != [] ==> r == Success(old(tokens)[0]) && tokens == old(tokens)[1..]
    {
      if tokens == [] {
        return Failure(Underrun);
      }
      r := Success(tokens[0]);
      tokens := tokens[1..];
    }
  }
}

/**
 * decaf BlockingByteArrayInputStream: an input stream over an internal byte buffer that
 * another thread refills with setByteArray. Reads block while the buffer is used up and
 * fail once the stream is closing.
 *
 * A wait (the stream's monitor is released until notifyAll) is modelled as one event of a
 * schedule the caller passes in: while the reader waits, another thread either did nothing
 * that concerns the buffer (a spurious wake-up), called setByteArray, or called close. A
 * call that still needs to wait when the schedule is used up is reported as blocked.
 */
module BlockingByteArrayInput {
  import opened Common

  /** What another thread did while a reader was waiting. */
  datatype Wake = Spurious | DataSet(bytes: seq<byte>) | Closed

  /** The stream's fields: the buffer, the read position in it, and the closing flag. */
  datatype StreamValue = StreamValue(buffer: seq<byte>, pos: nat, closing: bool)

  /** The effect of a wake event on the stream. */
  function Apply(s: StreamValue, w: Wake): (t: StreamValue)
    ensures w.Spurious? ==> t == s
    ensures w.DataSet? ==> t == StreamValue(w.bytes, 0, s.closing)
    ensures w.Closed? ==> t == StreamValue([], s.pos, true)
  {
    match w
    case Spurious => s
    case DataSet(bytes) => s.(buffer := bytes, pos := 0)
    case Closed => s.(buffer := [], closing := true)
  }

  // ---------------------------------------------------------------------------
  // read()
  // ---------------------------------------------------------------------------

  datatype ByteRead = Got(b: byte) | CloseDuringRead | StillBlocked

  datatype ByteOutcome = ByteOutcome(result: ByteRead, state: StreamValue)

  /** read(): the next byte, waiting (one wake event per wait) while none is left. */
  function ReadByte(s: StreamValue, wakes: seq<Wake>): (o: ByteOutcome)
    ensures s.closing ==> o == ByteOutcome(CloseDuringRead, s)
    ensures !s.closing && s.pos < |s.buffer| ==> o == ByteOutcome(Got(s.buffer[s.pos]), s.(pos := s.pos + 1))
    ensures o.result.Got? ==> !o.state.closing && 0 < o.state.pos <= |o.state.buffer|
    ensures o.result.Got? ==> o.result.b == o.state.buffer[o.state.pos - 1]
    ensures o.result.CloseDuringRead? ==> o.state.closing
    decreases |wakes|
  {
    if s.closing then ByteOutcome(CloseDuringRead, s)
    else if s.pos < |s.buffer| then ByteOutcome(Got(s.buffer[s.pos]), s.(pos := s.pos + 1))
    else if wakes == [] then ByteOutcome(StillBlocked, s)
    else ReadByte(Apply(s, wakes[0]), wakes[1..])
  }

  // ---------------------------------------------------------------------------
  // read(buffer, size)
  // ---------------------------------------------------------------------------

  datatype BlockRead = Count(n: nat) | CloseDuringBlockRead | BlockStillBlocked | UndefinedRead

  /** The result, the bytes copied into the caller's buffer so far, and the stream after. */
  datatype BlockOutcome = BlockOutcome(result: BlockRead, copied: seq<byte>, state: StreamValue)

  /**
   * read(buffer, size), waiting until data arrives or the stream closes before each byte
   * that is not yet there; `copied` holds the bytes already placed in the caller's buffer.
   */
  function ReadBlock(s: StreamValue, remaining: nat, wakes: seq<Wake>, copied: seq<byte>): (o: BlockOutcome)
    ensures |copied| <= |o.copied| <= |copied| + remaining && o.copied[..|copied|] == copied
    ensures o.result.Count? ==> o.result.n == |o.copied| == |copied| + remaining && !o.state.closing
    ensures o.result.CloseDuringBlockRead? ==> o.state.closing
    ensures !o.result.UndefinedRead?
    decreases remaining + |wakes|
  {
    if s.closing then BlockOutcome(CloseDuringBlockRead, copied, s)
    else if remaining == 0 then BlockOutcome(Count(|copied|), copied, s)
    else if s.pos < |s.buffer| then ReadBlock(s.(pos := s.pos + 1), remaining - 1, wakes, copied + [s.buffer[s.pos]])
    else if wakes == [] then BlockOutcome(BlockStillBlocked, copied, s)
    else ReadBlock(Apply(s, wakes[0]), remaining, wakes[1..], copied)
  }

  /** With a byte there, read(buffer, size) copies it and goes on with one byte less to read. */
  lemma ReadBlockStep(s: StreamValue, remaining: nat, wakes: seq<Wake>, copied: seq<byte>)
    requires !s.closing && remaining > 0 && s.pos < |s.buffer|
    ensures ReadBlock(s, remaining, wakes, copied)
         == ReadBlock(s.(pos := s.pos + 1), remaining - 1, wakes, copied + [s.buffer[s.pos]])
  {
  }

  /** With at least `size` bytes left, read(buffer, size) copies them in order and returns size. */
  lemma ReadBlockAvailable(s: StreamValue, size: nat, wakes: seq<Wake>)
    requires !s.closing && s.pos + size <= |s.buffer|
    ensures ReadBlock(s, size, wakes, []) == BlockOutcome(Count(size), s.buffer[s.pos..s.pos + size], s.(pos := s.pos + size))
  {
    ReadBlockAvailableFrom(s, size, wakes, []);
    assert [] + s.buffer[s.pos..s.pos + size] == s.buffer[s.pos..s.pos + size];
  }

  lemma {:induction false} ReadBlockAvailableFrom(s: StreamValue, size: nat, wakes: seq<Wake>, copied: seq<byte>)
    requires !s.closing && s.pos + size <= |s.buffer|
    ensures ReadBlock(s, size, wakes, copied)
         == BlockOutcome(Count(|copied| + size), copied + s.buffer[s.pos..s.pos + size], s.(pos := s.pos + size))
    decreases size
  {
    if size == 0 {
      assert copied + s.buffer[s.pos..s.pos] == copied;
    } else {
      var t := s.(pos := s.pos + 1);
      ReadBlockAvailableFrom(t, size - 1, wakes, copied + [s.buffer[s.pos]]);
      assert (copied + [s.buffer[s.pos]]) + t.buffer[t.pos..t.pos + size - 1] == copied + s.buffer[s.pos..s.pos + size];
    }
  }

  /**
   * The loop of read(buffer, size) as written: after a wait it copies the byte at the
   * position without checking again that one is there, so a wake-up that brought no data
   * makes it read past the end of the buffer (UndefinedRead).
   */
  function ReadBlockAsWritten(s: StreamValue, remaining: nat, wakes: seq<Wake>, copied: seq<byte>): (o: BlockOutcome)
    ensures |copied| <= |o.copied| <= |copied| + remaining
    decreases remaining
  {
    if s.closing then BlockOutcome(CloseDuringBlockRead, copied, s)
    else if remaining == 0 then BlockOutcome(Count(|copied|), copied, s)
    else if s.pos < |s.buffer| then ReadBlockAsWritten(s.(pos := s.pos + 1), remaining - 1, wakes, copied + [s.buffer[s.pos]])
    else if wakes == [] then BlockOutcome(BlockStillBlocked, copied, s)
    else
      var t := Apply(s, wakes[0]);
      if t.closing then BlockOutcome(CloseDuringBlockRead, copied, t)
      else if t.pos >= |t.buffer| then BlockOutcome(UndefinedRead, copied, t)
      else ReadBlockAsWritten(t.(pos := t.pos + 1), remaining - 1, wakes[1..], copied + [t.buffer[t.pos]])
  }

  /** A spurious wake-up during a one-byte read of an empty stream reads past the end. */
  lemma SpuriousWakeReadsPastEnd()
    ensures ReadBlockAsWritten(StreamValue([], 0, false), 1, [Spurious], []).result == UndefinedRead
    ensures ReadBlock(StreamValue([], 0, false), 1, [Spurious], []).result == BlockStillBlocked
  {
  }

  /** So does a setByteArray with an empty array while the reader waits. */
  lemma EmptyRefillReadsPastEnd()
    ensures ReadBlockAsWritten(StreamValue([], 0, false), 1, [DataSet([])], []).result == UndefinedRead
  {
  }

  /** Where the as-written loop gives a result other than UndefinedRead, the corrected one agrees. */
  lemma {:induction false} AsWrittenAgrees(s: StreamValue, remaining: nat, wakes: seq<Wake>, copied: seq<byte>)
    requires !ReadBlockAsWritten(s, remaining, wakes, copied).result.UndefinedRead?
    requires !ReadBlockAsWritten(s, remaining, wakes, copied).result.BlockStillBlocked?
    ensures ReadBlock(s, remaining, wakes, copied) == ReadBlockAsWritten(s, remaining, wakes, copied)
    decreases remaining
  {
    if s.closing || remaining == 0 {
    } else if s.pos < |s.buffer| {
      AsWrittenAgrees(s.(pos := s.pos + 1), remaining - 1, wakes, copied + [s.buffer[s.pos]]);
    } else if wakes != [] {
      var t := Apply(s, wakes[0]);
      if !t.closing {
        assert t.pos < |t.buffer|;
        AsWrittenAgrees(t.(pos := t.pos + 1), remaining - 1, wakes[1..], copied + [t.buffer[t.pos]]);
      }
    }
  }

  // ---------------------------------------------------------------------------
  // skip(num)
  // ---------------------------------------------------------------------------

  /** skip(num) on an open stream moves over min(num, bytes left); on a closing one, 0. */
  function SkipCount(s: StreamValue, num: nat): (n: nat)
    ensures s.closing ==> n == 0
    ensures !s.closing ==> n <= num && (s.pos + n <= |s.buffer| || n == 0)
    ensures !s.closing && s.pos <= |s.buffer| ==> n == if num < |s.buffer| - s.pos then num else |s.buffer| - s.pos
  {
    if s.closing || s.pos >= |s.buffer| then 0
    else if num < |s.buffer| - s.pos then num
    else |s.buffer| - s.pos
  }

  // ---------------------------------------------------------------------------
  // The stream
  // ---------------------------------------------------------------------------

  class BlockingByteArrayInputStream {
    var buffer: seq<byte>
    var pos: nat
    var closing: bool

    /** Outside a close the position lies within the buffer; close clears the buffer only. */
    predicate Valid()
      reads this
    {
      closing || pos <= |buffer|
    }

    function Value(): StreamValue
      reads this
    {
      StreamValue(buffer, pos, closing)
    }

    /** An empty stream, positioned at its end, not closing. */
    constructor ()
      ensures Valid() && Value() == StreamValue([], 0, false)
    {
      buffer := [];
      pos := 0;
      closing := false;
    }

    /** A stream over the first `bufferSize` bytes of `bytes`. */
    constructor FromArray(bytes: array<byte>, bufferSize: nat)
      requires bufferSize <= bytes.Length
      ensures Valid() && Value() == StreamValue(bytes[..bufferSize], 0, false)
    {
      buffer := [];
      pos := 0;
      closing := false;
      new;
      SetByteArray(bytes, bufferSize);
    }

    /** The buffer becomes exactly bytes[0..bufferSize), read from its start. */
    method SetByteArray(bytes: array<byte>, bufferSize: nat)
      requires bufferSize <= bytes.Length
      modifies this
      ensures Valid() && Value() == StreamValue(bytes[..bufferSize], 0, old(closing))
    {
      buffer := [];
      var ix := 0;
      while ix < bufferSize
        invariant 0 <= ix <= bufferSize
        invariant buffer == bytes[..ix] && closing == old(closing)
      {
        buffer := buffer + [bytes[ix]];
        ix := ix + 1;
      }
      pos := 0;
    }

    /** The stream is closing from now on and its buffer is empty. */
    method Close()
      modifies this
      ensures Valid() && Value() == StreamValue([], old(pos), true)
    {
      closing := true;
      buffer := [];
    }

    /** One wait: what another thread did meanwhile, through setByteArray or close. */
    method Wait(w: Wake)
      requires Valid()
      modifies this
      ensures Valid() && Value() == Apply(old(Value()), w)
    {
      match w
      case Spurious =>
      case DataSet(bytes) =>
        buffer := bytes;
        pos := 0;
      case Closed =>
        Close();
    }

    method Read(wakes: seq<Wake>) returns (r: ByteRead)
      requires Valid()
      modifies this
      ensures Valid() && ByteOutcome(r, Value()) == ReadByte(old(Value()), wakes)
    {
      var i := 0;
      while !closing
        invariant Valid() && 0 <= i <= |wakes|
        invariant ReadByte(old(Value()), wakes) == ReadByte(Value(), wakes[i..])
        decreases |wakes| - i
      {
        if pos < |buffer| {
          r := Got(buffer[pos]);
          pos := pos + 1;
          return;
        }
        if i == |wakes| {
          return StillBlocked;
        }
        assert wakes[i..][1..] == wakes[i + 1..];
        Wait(wakes[i]);
        i := i + 1;
      }
      r := CloseDuringRead;
    }

    /**
     * read(buffer, size) with the wait re-checked until a byte is there or the stream
     * closes: the bytes read go to target[0..), the rest of target is untouched.
     */
    method ReadInto(target: array<byte>, size: nat, wakes: seq<Wake>) returns (r: BlockRead)
      requires Valid() && size <= target.Length
      modifies this, target
      ensures Valid()
      ensures var o := ReadBlock(old(Value()), size, wakes, []);
        && r == o.result && Value() == o.state
        && target[..|o.copied|] == o.copied && target[|o.copied|..] == old(target[|o.copied|..])
    {
      var ix := 0;
      var i := 0;
      while ix < size && !closing
        invariant Valid() && 0 <= ix <= size && 0 <= i <= |wakes|
        invariant ReadBlock(old(Value()), size, wakes, []) == ReadBlock(Value(), size - ix, wakes[i..], target[..ix])
        invariant target[ix..] == old(target[ix..])
        decreases size - ix
      {
        var blocked;
        i, blocked := AwaitByte(size - ix, target[..ix], wakes, i);
        if blocked {
          return BlockStillBlocked;
        }
        if closing {
          break;
        }
        ReadBlockStep(Value(), size - ix, wakes[i..], target[..ix]);
        CopyByte(target, ix);
        ix := ix + 1;
      }
      if closing {
        return CloseDuringBlockRead;
      }
      r := Count(ix);
    }

    /** One step of the copy loop: the byte at the position goes to target[ix]. */
    method CopyByte(target: array<byte>, ix: nat)
      requires !closing && pos < |buffer| && ix < target.Length
      modifies this, target
      ensures Valid() && Value() == old(Value()).(pos := old(pos) + 1)
      ensures target[..ix + 1] == old(target[..ix]) + [old(buffer[pos])]
      ensures target[ix + 1..] == old(target[ix + 1..])
    {
      target[ix] := buffer[pos];
      pos := pos + 1;
    }

    /** The waits before one byte of read(buffer, size): until a byte is there or a close. */
    method AwaitByte(ghost remaining: nat, ghost copied: seq<byte>, wakes: seq<Wake>, i: nat) returns (j: nat, blocked: bool)
      requires Valid() && i <= |wakes| && remaining > 0
      modifies this
      ensures Valid() && i <= j <= |wakes|
      ensures blocked ==> !closing && pos >= |buffer|
      ensures !blocked ==> closing || pos < |buffer|
      ensures blocked ==> ReadBlock(old(Value()), remaining, wakes[i..], copied) == BlockOutcome(BlockStillBlocked, copied, Value())
      ensures !blocked ==> ReadBlock(old(Value()), remaining, wakes[i..], copied) == ReadBlock(Value(), remaining, wakes[j..], copied)
    {
      j := i;
      while pos >= |buffer| && !closing
        invariant Valid() && i <= j <= |wakes|
        invariant ReadBlock(old(Value()), remaining, wakes[i..], copied) == ReadBlock(Value(), remaining, wakes[j..], copied)
        decreases |wakes| - j
      {
        if j == |wakes| {
          return j, true;
        }
        assert wakes[j..][1..] == wakes[j + 1..];
        Wait(wakes[j]);
        j := j + 1;
      }
      blocked := false;
    }

    method Skip(num: nat) returns (n: nat)
      requires Valid()
      modifies this
      ensures Valid() && n == SkipCount(old(Value()), num)
      ensures Value() == old(Value()).(pos := old(pos) + n)
    {
      n := 0;
      while n < num && !closing && pos < |buffer|
        invariant Valid() && pos == old(pos) + n && n <= num
        invariant buffer == old(buffer) && closing == old(closing)
        invariant (closing || old(pos) >= |buffer|) ==> n == 0
      {
        n := n + 1;
        pos := pos + 1;
      }
    }
  }
}

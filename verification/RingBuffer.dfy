/** The ring buffer in which the AAC decoder delays its output samples. */
module RingBuffer {

  type Sample = x: int | -0x8000 <= x < 0x8000

  /** Adding to a position stays in the buffer after at most one turn. */
  function Wrap(pos: int, size: int): int {
    if pos >= size then pos - size else pos
  }

  /** The `len` samples that a reader starting at `pos` meets in `buf`. */
  function Window(buf: seq<Sample>, pos: nat, len: nat): (w: seq<Sample>)
    requires pos <= |buf| && len <= |buf|
    ensures |w| == len
  {
    if pos + len <= |buf| then buf[pos..pos + len] else buf[pos..] + buf[..pos + len - |buf|]
  }

  /** Sample `k` of a window sits at the wrapped position `pos + k`. */
  lemma WindowAt(buf: seq<Sample>, pos: nat, len: nat, k: nat)
    requires pos < |buf| && k < len <= |buf|
    ensures 0 <= Wrap(pos + k, |buf|) < |buf|
    ensures Window(buf, pos, len)[k] == buf[Wrap(pos + k, |buf|)]
  {
  }

  /** Taking the first `n` samples of a window leaves the window that starts `n` further on. */
  lemma WindowSplit(buf: seq<Sample>, pos: nat, len: nat, n: nat)
    requires pos < |buf| && n <= len <= |buf|
    ensures Window(buf, pos, len)[..n] == Window(buf, pos, n)
    ensures 0 <= Wrap(pos + n, |buf|) < |buf|
    ensures Window(buf, pos, len)[n..] == Window(buf, Wrap(pos + n, |buf|), len - n)
  {
    hide Window;
    var whole, rest := Window(buf, pos, len), Window(buf, Wrap(pos + n, |buf|), len - n);
    forall k | 0 <= k < len - n
      ensures whole[n..][k] == rest[k]
    {
      WindowAt(buf, pos, len, n + k);
      WindowAt(buf, Wrap(pos + n, |buf|), len - n, k);
    }
    assert whole[n..] == rest;
    WindowPrefix(buf, pos, len, n);
  }

  lemma {:induction false} WindowPrefix(buf: seq<Sample>, pos: nat, len: nat, n: nat)
    requires pos < |buf| && n <= len <= |buf|
    ensures Window(buf, pos, len)[..n] == Window(buf, pos, n)
  {
    hide Window;
    forall k | 0 <= k < n
      ensures Window(buf, pos, len)[..n][k] == Window(buf, pos, n)[k]
    {
      WindowAt(buf, pos, len, k);
      WindowAt(buf, pos, n, k);
    }
  }

  /** Storing one more sample behind a window that is not full extends it by that sample. */
  lemma WindowExtend(buf: seq<Sample>, pos: nat, len: nat, x: Sample)
    requires pos < |buf| && len < |buf|
    ensures 0 <= Wrap(pos + len, |buf|) < |buf|
    ensures Window(buf[Wrap(pos + len, |buf|) := x], pos, len + 1) == Window(buf, pos, len) + [x]
  {
    var at := Wrap(pos + len, |buf|);
    var buf' := buf[at := x];
    forall k | 0 <= k < len + 1
      ensures Window(buf', pos, len + 1)[k] == (Window(buf, pos, len) + [x])[k]
    {
      WindowAt(buf', pos, len + 1, k);
      if k < len {
        WindowAt(buf, pos, len, k);
      }
    }
  }

  /** `buf` after writing `samples` one by one from `pos`, testing for the wrap after every sample. */
  function Stored(buf: seq<Sample>, pos: nat, samples: seq<Sample>): (r: seq<Sample>)
    requires pos < |buf|
    ensures |r| == |buf|
    decreases |samples|
  {
    if samples == [] then buf
    else Stored(buf[pos := samples[0]], Wrap(pos + 1, |buf|), samples[1..])
  }

  /** Writing behind a window, while there is room, appends to it. */
  lemma {:induction false} StoredAppends(buf: seq<Sample>, pos: nat, len: nat, samples: seq<Sample>)
    requires pos < |buf| && len + |samples| <= |buf|
    requires 0 <= Wrap(pos + len, |buf|) < |buf|
    ensures Window(Stored(buf, Wrap(pos + len, |buf|), samples), pos, len + |samples|)
         == Window(buf, pos, len) + samples
    decreases |samples|
  {
    if samples != [] {
      var buf' := buf[Wrap(pos + len, |buf|) := samples[0]];
      assert Window(buf', pos, len + 1) == Window(buf, pos, len) + [samples[0]] by {
        WindowExtend(buf, pos, len, samples[0]);
      }
      StoredAppends(buf', pos, len + 1, samples[1..]);
      assert [samples[0]] + samples[1..] == samples;
    }
  }

  /** One round of a copy-out loop. */
  lemma LoadExtends(contents: seq<Sample>, out: seq<Sample>, i: nat)
    requires i < |contents| && i < |out|
    ensures (contents[..i] + out[i..])[i := contents[i]] == contents[..i + 1] + out[i + 1..]
  {
  }

  class OutputDelayRing {
    const buffer: array<Sample>
    var writePos: int
    var readPos: int
    var filled: int

    ghost predicate Valid()
      reads this
    {
      && 0 < buffer.Length
      && 0 <= readPos < buffer.Length
      && 0 <= filled <= buffer.Length
      && writePos == Wrap(readPos + filled, buffer.Length)
    }

    /** The samples waiting in the ring, oldest first. */
    ghost function Contents(): (s: seq<Sample>)
      requires Valid()
      reads this, buffer
      ensures |s| == filled
    {
      Window(buffer[..], readPos, filled)
    }

    constructor (size: nat)
      requires 0 < size
      ensures Valid() && fresh(buffer) && buffer.Length == size
      ensures Contents() == []
    {
      buffer := new Sample[size](_ => 0);
      writePos, readPos, filled := 0, 0, 0;
    }

    method Clear()
      requires Valid()
      modifies this
      ensures Valid() && Contents() == []
    {
      writePos, readPos, filled := 0, 0, 0;
    }

    method SamplesAvailable() returns (n: int)
      requires Valid()
      ensures n == |Contents()|
    {
      n := filled;
    }

    method SpaceLeft() returns (n: int)
      requires Valid()
      ensures n == buffer.Length - |Contents()|
    {
      var available := SamplesAvailable();
      n := buffer.Length - available;
    }

    /** The copy loop for a region that does not wrap. */
    method CopyIn(samples: seq<Sample>)
      requires 0 <= writePos < buffer.Length && writePos + |samples| <= buffer.Length
      modifies this`writePos, buffer
      ensures writePos == old(writePos) + |samples|
      ensures buffer[..] == Stored(old(buffer[..]), old(writePos), samples)
    {
      ghost var goal := Stored(buffer[..], writePos, samples);
      for i := 0 to |samples|
        invariant writePos == old(writePos) + i
        invariant i < |samples| ==> Stored(buffer[..], writePos, samples[i..]) == goal
        invariant i == |samples| ==> buffer[..] == goal
      {
        ghost var was := buffer[..];
        buffer[writePos] := samples[i];
        assert buffer[..] == was[writePos := samples[i]];
        assert samples[i..][1..] == samples[i + 1..];
        writePos := writePos + 1;
      }
    }

    /** The copy loop that tests for the wrap at every sample. */
    method CopyInWrapping(samples: seq<Sample>)
      requires 0 <= writePos < buffer.Length && |samples| <= buffer.Length
      modifies this`writePos, buffer
      ensures writePos == Wrap(old(writePos) + |samples|, buffer.Length)
      ensures buffer[..] == Stored(old(buffer[..]), old(writePos), samples)
    {
      ghost var goal := Stored(buffer[..], writePos, samples);
      for i := 0 to |samples|
        invariant 0 <= writePos < buffer.Length
        invariant writePos == Wrap(old(writePos) + i, buffer.Length)
        invariant Stored(buffer[..], writePos, samples[i..]) == goal
      {
        ghost var was := buffer[..];
        buffer[writePos] := samples[i];
        assert buffer[..] == was[writePos := samples[i]];
        assert samples[i..][1..] == samples[i + 1..];
        writePos := writePos + 1;
        if writePos >= buffer.Length {
          writePos := writePos - buffer.Length;
        }
      }
    }

    /** Writes `samples` from the write position, by whichever loop the positions allow. */
    method Append(samples: seq<Sample>)
      requires Valid() && filled + |samples| <= buffer.Length && samples != []
      modifies this`writePos, buffer
      ensures writePos == Wrap(old(writePos) + |samples|, buffer.Length)
      ensures buffer[..] == Stored(old(buffer[..]), old(writePos), samples)
    {
      var numSamples := |samples|;
      if writePos + numSamples <= buffer.Length
         && (readPos <= writePos || readPos > writePos + numSamples) {
        CopyIn(samples);
        if writePos >= buffer.Length {
          writePos := writePos - buffer.Length;
        }
      } else {
        CopyInWrapping(samples);
      }
    }

    /** Appends all of `samples`, or refuses and changes nothing. The branch for a region without a
        wrap and the branch that tests for the wrap at every sample leave the same buffer. */
    method PutSamples(samples: seq<Sample>) returns (ok: bool)
      requires Valid()
      modifies this`writePos, this`filled, buffer
      ensures Valid()
      ensures ok <==> old(|Contents()|) + |samples| <= buffer.Length
      ensures ok ==> Contents() == old(Contents()) + samples
      ensures ok ==> buffer[..] == Stored(old(buffer[..]), old(writePos), samples)
      ensures !ok ==> unchanged(this) && unchanged(buffer)
    {
      var numSamples := |samples|;
      if numSamples == 0 {
        assert samples == [];
        return true;
      }
      var space := SpaceLeft();
      if space < numSamples {
        return false;
      }
      ghost var buf, start, len := buffer[..], readPos, filled;
      Append(samples);
      filled := filled + numSamples;
      ok := true;
      assert Contents() == Window(buf, start, len) + samples by {
        StoredAppends(buf, start, len, samples);
      }
    }

    /** The read loop for a region that does not wrap. */
    method CopyOut(out: array<Sample>, numSamples: nat)
      requires Valid() && out != buffer && numSamples <= out.Length && numSamples <= filled
      requires readPos + numSamples <= buffer.Length
      modifies this`readPos, out
      ensures readPos == old(readPos) + numSamples
      ensures out[..] == old(Contents())[..numSamples] + old(out[..])[numSamples..]
    {
      ghost var contents, start := Contents(), readPos;
      for i := 0 to numSamples
        invariant readPos == start + i
        invariant out[..] == contents[..i] + old(out[..])[i..]
      {
        WindowAt(buffer[..], start, filled, i);
        LoadExtends(contents, old(out[..]), i);
        ghost var was := out[..];
        out[i] := buffer[readPos];
        assert out[..] == was[i := contents[i]];
        readPos := readPos + 1;
      }
    }

    /** The read loop that tests for the wrap at every sample, copying when `out` is not null. */
    method CopyOutWrapping(out: array?<Sample>, numSamples: nat)
      requires Valid() && numSamples <= filled
      requires out != null ==> out != buffer && numSamples <= out.Length
      modifies this`readPos
      modifies if out == null then {} else {out}
      ensures readPos == Wrap(old(readPos) + numSamples, buffer.Length)
      ensures out != null ==> out[..] == old(Contents())[..numSamples] + old(out[..])[numSamples..]
    {
      ghost var contents, start := Contents(), readPos;
      for i := 0 to numSamples
        invariant readPos == Wrap(start + i, buffer.Length)
        invariant out != null ==> out[..] == contents[..i] + old(out[..])[i..]
      {
        WindowAt(buffer[..], start, filled, i);
        if out != null {
          LoadExtends(contents, old(out[..]), i);
          ghost var was := out[..];
          out[i] := buffer[readPos];
          assert out[..] == was[i := contents[i]];
        }
        readPos := readPos + 1;
        if readPos >= buffer.Length {
          readPos := readPos - buffer.Length;
        }
      }
    }

    /** Moves the read position on by `numSamples`, by whichever loop the positions allow. */
    method Advance(out: array?<Sample>, numSamples: nat)
      requires Valid() && numSamples <= filled
      requires out != null ==> out != buffer && numSamples <= out.Length
      modifies this`readPos
      modifies if out == null then {} else {out}
      ensures readPos == Wrap(old(readPos) + numSamples, buffer.Length)
      ensures out != null ==> out[..] == old(Contents())[..numSamples] + old(out[..])[numSamples..]
    {
      if readPos + numSamples <= buffer.Length
         && (writePos < readPos || writePos >= readPos + numSamples) {
        if out != null {
          CopyOut(out, numSamples);
        } else {
          readPos := readPos + numSamples;
        }
        if readPos >= buffer.Length {
          readPos := readPos - buffer.Length;
        }
      } else {
        CopyOutWrapping(out, numSamples);
      }
    }

    /** Removes exactly the oldest `numSamples` samples, copying them out when `out` is not null;
        asking for more than there are changes nothing and answers -1. */
    method GetSamples(out: array?<Sample>, numSamples: nat) returns (r: int)
      requires Valid()
      requires out != null ==> out != buffer && numSamples <= out.Length
      modifies this`readPos, this`filled
      modifies if out == null then {} else {out}
      ensures Valid()
      ensures r == if numSamples <= old(|Contents()|) then numSamples else -1
      ensures r == -1 ==> unchanged(this) && (out != null ==> unchanged(out))
      ensures r != -1 ==> Contents() == old(Contents())[numSamples..]
      ensures r != -1 && out != null ==> out[..] == old(Contents())[..numSamples] + old(out[..])[numSamples..]
    {
      if numSamples > filled {
        return -1;
      }
      hide Window;
      ghost var buf, start, len := buffer[..], readPos, filled;
      Advance(out, numSamples);
      filled := filled - numSamples;
      r := numSamples;
      assert Valid();
      assert Contents() == Window(buf, start, len)[numSamples..] by {
        assert buffer[..] == buf;
        WindowSplit(buf, start, len, numSamples);
      }
    }
  }
}

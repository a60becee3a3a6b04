/** ADTS framing (section 1.A.2.2 of ISO/IEC 14496-3) as the AAC decoder reads it. */
module AdtsFraming {

  type Byte = x: int | 0 <= x < 0x100

  datatype Header = Bad | Good(headerSize: nat, payload: nat)

  /** The header at the start of `data`: bad when the data are too short for a header or for the
      frame it announces, or when the frame is too short for its own header. */
  function ReadHeader(data: seq<Byte>): (h: Header)
    ensures h.Good? ==> h.headerSize in {7, 9} && h.headerSize + h.payload <= |data|
  {
    if |data| < 7 then Bad
    else
      var protectionAbsent := data[1] % 2 == 1;
      var frameLength: int := data[3] as int % 4 * 0x800 + data[4] as int * 8 + data[5] as int / 32;
      var headerSize := if protectionAbsent then 7 else 9;
      if |data| < frameLength || frameLength < headerSize then Bad
      else Good(headerSize, frameLength - headerSize)
  }

  /** The payloads of a run of ADTS frames, or nothing when some header is bad. */
  datatype Payloads = Broken | Whole(payloads: seq<seq<Byte>>)

  function Split(data: seq<Byte>): Payloads
    decreases |data|
  {
    if data == [] then Whole([])
    else match ReadHeader(data)
      case Bad => Broken
      case Good(headerSize, payload) =>
        match Split(data[headerSize + payload..])
        case Broken => Broken
        case Whole(rest) => Whole([data[headerSize..headerSize + payload]] + rest)
  }

  /** What a writer chooses freely in a frame: whether there is a checksum, the two checksum bytes,
      and the bits around the 13-bit length field. */
  datatype Frame = Frame(protected: bool, crc: (Byte, Byte), sync: Byte, fixed: Byte, profile: Byte,
                         high: nat, low: nat, fullness: Byte, payload: seq<Byte>)

  function HeaderSize(f: Frame): nat { if f.protected then 9 else 7 }

  predicate Writable(f: Frame) {
    && HeaderSize(f) + |f.payload| < 0x2000
    && f.fixed % 2 == 0 && f.high < 64 && f.low < 32
  }

  /** The frame as bytes, its length in the low 2 bits of byte 3, byte 4 and the high 3 bits of byte 5. */
  function Write(f: Frame): (bytes: seq<Byte>)
    requires Writable(f)
    ensures |bytes| == HeaderSize(f) + |f.payload|
  {
    var length := HeaderSize(f) + |f.payload|;
    [f.sync, if f.protected then f.fixed else f.fixed + 1, f.profile,
     f.high * 4 + length / 0x800, length / 8 % 0x100, length % 8 * 32 + f.low, f.fullness]
    + (if f.protected then [f.crc.0, f.crc.1] else []) + f.payload
  }

  function WriteAll(frames: seq<Frame>): seq<Byte>
    requires forall f :: f in frames ==> Writable(f)
  {
    if frames == [] then [] else Write(frames[0]) + WriteAll(frames[1..])
  }

  lemma ReadsWhatIsWritten(f: Frame, rest: seq<Byte>)
    requires Writable(f)
    ensures ReadHeader(Write(f) + rest) == Good(HeaderSize(f), |f.payload|)
    ensures (Write(f) + rest)[HeaderSize(f)..HeaderSize(f) + |f.payload|] == f.payload
    ensures (Write(f) + rest)[HeaderSize(f) + |f.payload|..] == rest
  {
    FollowsHeader(f, rest);
    var length := HeaderSize(f) + |f.payload|;
    var data := Write(f) + rest;
    assert data[3] % 4 == length / 0x800 && data[4] == length / 8 % 0x100 && data[5] / 32 == length % 8;
    assert data[1] % 2 == if f.protected then 0 else 1;
    LengthBits(length);
    hide Write;
  }

  lemma FollowsHeader(f: Frame, rest: seq<Byte>)
    requires Writable(f)
    ensures (Write(f) + rest)[HeaderSize(f)..HeaderSize(f) + |f.payload|] == f.payload
    ensures (Write(f) + rest)[HeaderSize(f) + |f.payload|..] == rest
  {
  }

  lemma LengthBits(length: nat)
    ensures length == length / 0x800 * 0x800 + length / 8 % 0x100 * 8 + length % 8
  {
  }

  function PayloadsOf(frames: seq<Frame>): seq<seq<Byte>> {
    if frames == [] then [] else [frames[0].payload] + PayloadsOf(frames[1..])
  }

  /** Round trip: splitting a written run of frames gives back the payloads, in order. */
  lemma {:induction false} SplitInvertsWrite(frames: seq<Frame>)
    requires forall f :: f in frames ==> Writable(f)
    ensures Split(WriteAll(frames)) == Whole(PayloadsOf(frames))
  {
    if frames != [] {
      ReadsWhatIsWritten(frames[0], WriteAll(frames[1..]));
      SplitInvertsWrite(frames[1..]);
    }
  }

  /** A frame of which the end is missing is refused. */
  lemma {:induction false} TruncatedIsBad(f: Frame, k: nat)
    requires Writable(f) && k < |Write(f)|
    ensures ReadHeader(Write(f)[..k]) == Bad
  {
    if k >= 7 {
      var length, data := HeaderSize(f) + |f.payload|, Write(f)[..k];
      assert data[3] % 4 == length / 0x800 && data[4] == length / 8 % 0x100 && data[5] / 32 == length % 8;
      LengthBits(length);
    }
  }

  /** So is a run of frames that ends in the middle of one, wherever it is cut. */
  lemma {:induction false} TruncatedRunIsBroken(frames: seq<Frame>, f: Frame, k: nat)
    requires (forall g :: g in frames ==> Writable(g)) && Writable(f) && 0 < k < |Write(f)|
    ensures Split(WriteAll(frames) + Write(f)[..k]) == Broken
  {
    var rest := Write(f)[..k];
    if frames == [] {
      TruncatedIsBad(f, k);
      assert [] + rest == rest;
    } else {
      var more := WriteAll(frames[1..]) + rest;
      assert WriteAll(frames) + rest == Write(frames[0]) + more;
      ReadsWhatIsWritten(frames[0], more);
      TruncatedRunIsBroken(frames[1..], f, k);
      hide ReadHeader, Write;
    }
  }
}

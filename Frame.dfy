/**
 * The 4-byte full-state frame of the ARX control unit, as its test vectors
 * lay it out:
 *
 *   byte 0  START marker 0xFF
 *   byte 1  attenuator 0 level (high nibble), attenuator 1 level (low nibble)
 *   byte 2  filterbank (high nibble), FEE power flags of channels 0..3 (low nibble,
 *           channel 0 in its most significant bit)
 *   byte 3  checksum: the XOR of bytes 0..2
 *
 * `Decode` rejects a buffer of the wrong length, a missing START marker and a
 * checksum mismatch; `Encode` is its inverse in both directions.
 */
module Frame {
  import opened Wrappers
  import Codes

  const StartByte: bv8 := Codes.StartByte as bv8
  const FrameSize: nat := Codes.FrameSize
  const Channels: nat := 4

  /** A 4-bit field, held in the low bits of a byte. */
  type Nibble = n: bv8 | n < 16

  /** The device state one frame carries. */
  datatype State = State(atten0: Nibble, atten1: Nibble, filterbank: Nibble, power: seq<bool>)

  predicate ValidState(s: State)
  {
    |s.power| == Channels
  }

  datatype FrameError =
    | WrongLength(length: nat)
    | BadStart(found: bv8)
    | BadChecksum(computed: bv8, found: bv8)

  /** The integrity byte: bitwise XOR of the START marker and the two field bytes. */
  function Checksum(b0: bv8, b1: bv8, b2: bv8): (c: bv8)
    ensures b0 ^ b1 ^ b2 ^ c == 0
  {
    b0 ^ b1 ^ b2
  }

  /** What a received buffer must satisfy to be accepted. */
  predicate WellFormed(f: seq<bv8>)
  {
    |f| == FrameSize && f[0] == StartByte && f[3] == Checksum(f[0], f[1], f[2])
  }

  function PackNibbles(hi: Nibble, lo: Nibble): bv8
  {
    (hi << 4) | lo
  }

  function HighNibble(b: bv8): Nibble
  {
    b >> 4
  }

  function LowNibble(b: bv8): Nibble
  {
    b & 0x0F
  }

  function Bit(flag: bool): bv8
  {
    if flag then 1 else 0
  }

  /** Channel 0's flag is the most significant bit of the nibble. */
  function PowerNibble(power: seq<bool>): (n: Nibble)
    requires |power| == Channels
    ensures (n & 8 != 0) == power[0] && (n & 4 != 0) == power[1] && (n & 2 != 0) == power[2] && (n & 1 != 0) == power[3]
  {
    (Bit(power[0]) << 3) | (Bit(power[1]) << 2) | (Bit(power[2]) << 1) | Bit(power[3])
  }

  function PowerFlags(n: Nibble): (power: seq<bool>)
    ensures |power| == Channels
  {
    [n & 8 != 0, n & 4 != 0, n & 2 != 0, n & 1 != 0]
  }

  function Encode(s: State): (f: seq<bv8>)
    requires ValidState(s)
    ensures WellFormed(f)
  {
    var b1 := PackNibbles(s.atten0, s.atten1);
    var b2 := PackNibbles(s.filterbank, PowerNibble(s.power));
    [StartByte, b1, b2, Checksum(StartByte, b1, b2)]
  }

  function Decode(f: seq<bv8>): (r: Result<State, FrameError>)
    ensures r.Ok? <==> WellFormed(f)
    ensures r.Ok? ==> ValidState(r.value)
  {
    if |f| != FrameSize then Err(WrongLength(|f|))
    else if f[0] != StartByte then Err(BadStart(f[0]))
    else if f[3] != Checksum(f[0], f[1], f[2]) then Err(BadChecksum(Checksum(f[0], f[1], f[2]), f[3]))
    else Ok(State(HighNibble(f[1]), LowNibble(f[1]), HighNibble(f[2]), PowerFlags(LowNibble(f[2]))))
  }

  // ---------------------------------------------------------------------------
  // round trips

  lemma PowerRoundTrip(power: seq<bool>)
    requires |power| == Channels
    ensures PowerFlags(PowerNibble(power)) == power
  {
  }

  lemma NibblesRoundTrip(b: bv8)
    ensures PackNibbles(HighNibble(b), LowNibble(b)) == b
  {
  }

  lemma PowerNibbleRoundTrip(n: Nibble)
    ensures PowerNibble(PowerFlags(n)) == n
  {
  }

  /** Decoding an encoded state gives the state back, field for field. */
  lemma DecodeEncode(s: State)
    requires ValidState(s)
    ensures Decode(Encode(s)) == Ok(s)
  {
    PowerRoundTrip(s.power);
  }

  /** Every accepted frame is the encoding of what it decodes to. */
  lemma EncodeDecode(f: seq<bv8>)
    requires Decode(f).Ok?
    ensures Encode(Decode(f).value) == f
  {
    NibblesRoundTrip(f[1]);
    PowerNibbleRoundTrip(LowNibble(f[2]));
    NibblesRoundTrip(f[2]);
  }

  lemma XorNonZeroChanges(b: bv8, mask: bv8)
    requires mask != 0
    ensures b ^ mask != b
  {
  }

  /** XOR-ing either field byte with a non-zero mask changes the checksum. */
  lemma ChecksumSensitive(b0: bv8, b1: bv8, b2: bv8, mask: bv8)
    requires mask != 0
    ensures Checksum(b0, b1 ^ mask, b2) != Checksum(b0, b1, b2)
    ensures Checksum(b0, b1, b2 ^ mask) != Checksum(b0, b1, b2)
  {
  }

  /** The frame with byte `i` XOR-ed with `mask`. */
  function Corrupt(f: seq<bv8>, i: nat, mask: bv8): (g: seq<bv8>)
    requires i < |f|
    ensures |g| == |f|
  {
    f[i := f[i] ^ mask]
  }

  lemma StartCorruptionDetected(f: seq<bv8>, mask: bv8)
    requires WellFormed(f) && mask != 0
    ensures !WellFormed(Corrupt(f, 0, mask))
  {
    XorNonZeroChanges(f[0], mask);
  }

  lemma AttenCorruptionDetected(f: seq<bv8>, mask: bv8)
    requires WellFormed(f) && mask != 0
    ensures !WellFormed(Corrupt(f, 1, mask))
  {
    ChecksumSensitive(f[0], f[1], f[2], mask);
  }

  lemma PowerCorruptionDetected(f: seq<bv8>, mask: bv8)
    requires WellFormed(f) && mask != 0
    ensures !WellFormed(Corrupt(f, 2, mask))
  {
    ChecksumSensitive(f[0], f[1], f[2], mask);
  }

  lemma ChecksumCorruptionDetected(f: seq<bv8>, mask: bv8)
    requires WellFormed(f) && mask != 0
    ensures !WellFormed(Corrupt(f, 3, mask))
  {
    XorNonZeroChanges(f[3], mask);
  }

  /** Corrupting any one byte of an accepted frame (XOR with a non-zero mask) makes it rejected. */
  lemma ByteCorruptionDetected(f: seq<bv8>, i: nat, mask: bv8)
    requires WellFormed(f)
    requires i < FrameSize && mask != 0
    ensures Decode(Corrupt(f, i, mask)).Err?
  {
    if i == 0 {
      StartCorruptionDetected(f, mask);
    } else if i == 1 {
      AttenCorruptionDetected(f, mask);
    } else if i == 2 {
      PowerCorruptionDetected(f, mask);
    } else {
      ChecksumCorruptionDetected(f, mask);
    }
  }

  /** Flipping any one of the 32 bits of an accepted frame makes it rejected. */
  lemma SingleBitFlipDetected(f: seq<bv8>, i: nat, j: nat)
    requires WellFormed(f)
    requires i < FrameSize && j < 8
    ensures Decode(Corrupt(f, i, (1 as bv8) << j)).Err?
  {
    assert (1 as bv8) << j != 0 by {
      assert j == 0 || j == 1 || j == 2 || j == 3 || j == 4 || j == 5 || j == 6 || j == 7;
    }
    ByteCorruptionDetected(f, i, (1 as bv8) << j);
  }

  // ---------------------------------------------------------------------------
  // the test vectors

  /** TEST_STATE_1, 0xfff01f10: levels 15 and 0, filterbank 1, all four channels powered. */
  lemma TestState1()
    ensures Checksum(0xFF, 0xF0, 0x1F) == 0x10
    ensures Decode([0xFF, 0xF0, 0x1F, 0x10]) == Ok(State(15, 0, 1, [true, true, true, true]))
    ensures Encode(State(15, 0, 1, [true, true, true, true])) == [0xFF, 0xF0, 0x1F, 0x10]
  {
  }

  /** TEST_STATE_2, 0xff0f0fff: levels 0 and 15, filterbank 0, all four channels powered. */
  lemma TestState2()
    ensures Checksum(0xFF, 0x0F, 0x0F) == 0xFF
    ensures Decode([0xFF, 0x0F, 0x0F, 0xFF]) == Ok(State(0, 15, 0, [true, true, true, true]))
    ensures Encode(State(0, 15, 0, [true, true, true, true])) == [0xFF, 0x0F, 0x0F, 0xFF]
  {
  }
}

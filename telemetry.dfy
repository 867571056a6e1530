/**
 * The sample reader drv_lis2dh_get_acc of src/drv_lis2dh.c, 16-bit build
 * (VEC_16 defined): each sample is a 6-byte range read from OUT_X_L into the
 * caller's vec3_t, three little-endian 16-bit words. This module gives the
 * byte layout of a sample and the caller's array after a call, in closed
 * form; the loop itself is Driver.Lis2dh.GetAcc.
 */
module Telemetry {
  import opened Registers
  import opened Protocol

  /** The number an int16_t holds: its 16 bits read as two's complement. */
  function Signed(x: bv16): int
  {
    if x & 0x8000 == 0 then x as int else x as int - 0x10000
  }

  /** The signed value of a byte (an int8_t). */
  function SignedByte(h: bv8): int
  {
    if h & 0x80 == 0 then h as int else h as int - 256
  }

  /** A little-endian 16-bit word from its low and high bytes. */
  function Word(lo: bv8, hi: bv8): bv16
  {
    ((hi as bv16) << 8) | lo as bv16
  }

  /** The value of a word is its signed high byte times 256 plus its low byte. */
  lemma WordValue(lo: bv8, hi: bv8)
    ensures Signed(Word(lo, hi)) == SignedByte(hi) * 256 + lo as int
  {
  }

  /** The two bytes of a 16-bit word in memory, low byte first. */
  function BytesOf(x: bv16): (b: seq<bv8>)
    ensures |b| == 2
  {
    [(x & 0xFF) as bv8, (x >> 8) as bv8]
  }

  /** Storing a word and reading its bytes back gives the word. */
  lemma WordRoundTrip(x: bv16)
    ensures Word(BytesOf(x)[0], BytesOf(x)[1]) == x
  {
  }

  /** Every byte pair is the storage of exactly the word it encodes. */
  lemma BytesRoundTrip(lo: bv8, hi: bv8)
    ensures BytesOf(Word(lo, hi)) == [lo, hi]
  {
  }

  /** The three axes of a sample from the six bytes of OUT_X_L..OUT_Z_H. */
  function Decode(b: seq<bv8>): Vec3
    requires |b| == 6
  {
    [Word(b[0], b[1]), Word(b[2], b[3]), Word(b[4], b[5])]
  }

  /** A sample as the six bytes of its storage. */
  function Encode(v: Vec3): (b: seq<bv8>)
    ensures |b| == 6
  {
    BytesOf(v[0]) + BytesOf(v[1]) + BytesOf(v[2])
  }

  /** Reading a sample's own storage back gives the sample. */
  lemma DecodeEncode(v: Vec3)
    ensures Decode(Encode(v)) == v
  {
    WordRoundTrip(v[0]);
    WordRoundTrip(v[1]);
    WordRoundTrip(v[2]);
  }

  /** Every six bytes are the storage of exactly one sample. */
  lemma EncodeDecode(b: seq<bv8>)
    requires |b| == 6
    ensures Encode(Decode(b)) == b
  {
    BytesRoundTrip(b[0], b[1]);
    BytesRoundTrip(b[2], b[3]);
    BytesRoundTrip(b[4], b[5]);
    assert Encode(Decode(b)) == [b[0], b[1]] + [b[2], b[3]] + [b[4], b[5]];
  }

  /** x >>= 8 on an int16_t: an arithmetic shift, which copies the sign bit into the top byte. */
  function Asr8(x: bv16): bv16
  {
    if x & 0x8000 == 0 then x >> 8 else (x >> 8) | 0xFF00
  }

  /** The arithmetic shift leaves the signed high byte of the word. */
  lemma ShiftGivesHighByte(lo: bv8, hi: bv8)
    ensures Signed(Asr8(Word(lo, hi))) == SignedByte(hi)
  {
    assert Asr8(Word(lo, hi)) == if hi & 0x80 == 0 then hi as bv16 else hi as bv16 | 0xFF00;
  }

  /** Shifting right by 8 divides by 256 rounding toward minus infinity. */
  lemma ShiftRoundsDown(x: bv16)
    ensures Signed(Asr8(x)) * 256 <= Signed(x) < (Signed(Asr8(x)) + 1) * 256
  {
    var lo, hi := BytesOf(x)[0], BytesOf(x)[1];
    WordRoundTrip(x);
    WordValue(lo, hi);
    ShiftGivesHighByte(lo, hi);
  }

  /** x >>= 8, y >>= 8, z >>= 8. */
  function Shr8(v: Vec3): (w: Vec3)
  {
    [Asr8(v[0]), Asr8(v[1]), Asr8(v[2])]
  }

  /** Each axis of a shifted sample is its value divided by 256, rounded down. */
  lemma SampleShift(v: Vec3)
    ensures forall a :: 0 <= a < 3 ==>
      Signed(Shr8(v)[a]) * 256 <= Signed(v[a]) < (Signed(Shr8(v)[a]) + 1) * 256
  {
    ShiftRoundsDown(v[0]);
    ShiftRoundsDown(v[1]);
    ShiftRoundsDown(v[2]);
  }

  /** The sample shifted right by 8 bits n times over. */
  function ShiftTimes(v: Vec3, n: nat): Vec3
  {
    if n == 0 then v else Shr8(ShiftTimes(v, n - 1))
  }

  /** The word whose bits are all copies of x's sign bit: -1 for a negative x, else 0. */
  function SignWord(x: bv16): (r: bv16)
    ensures Signed(r) == if Signed(x) < 0 then -1 else 0
  {
    if x & 0x8000 == 0 then 0 else 0xFFFF
  }

  /** Two arithmetic shifts by 8 leave only the sign, and further shifts keep it. */
  lemma SignFill(x: bv16)
    ensures Asr8(Asr8(x)) == SignWord(x)
    ensures Asr8(SignWord(x)) == SignWord(x)
  {
  }

  /** Shifting a sample right by 8 twice or more leaves each axis at -1 or 0, after its sign. */
  lemma {:induction false} ShiftedToSign(v: Vec3, n: nat)
    requires n >= 2
    ensures forall a :: 0 <= a < 3 ==> ShiftTimes(v, n)[a] == SignWord(v[a])
  {
    var w := ShiftTimes(v, n - 1);
    assert ShiftTimes(v, n) == [Asr8(w[0]), Asr8(w[1]), Asr8(w[2])];
    if n == 2 {
      assert ShiftTimes(v, 0) == v;
    } else {
      ShiftedToSign(v, n - 1);
    }
    SignFill(v[0]);
    SignFill(v[1]);
    SignFill(v[2]);
  }

  /** One shift by 8 of a sample leaves each axis equal to its signed high byte. */
  lemma ShiftKeepsHighByte(b: seq<bv8>)
    requires |b| == 6
    ensures forall a :: 0 <= a < 3 ==> Signed(Shr8(Decode(b))[a]) == SignedByte(b[2 * a + 1])
  {
    ShiftGivesHighByte(b[0], b[1]);
    ShiftGivesHighByte(b[2], b[3]);
    ShiftGivesHighByte(b[4], b[5]);
  }

  /** The trace position of the data transfer of sample j of a batch that starts at position at. */
  function SamplePos(at: nat, j: nat): nat
  {
    at + 2 * j + 1
  }

  /**
   * What sample j's read leaves in v[j]: the received bytes when its data
   * transfer succeeds, and otherwise the value already there.
   */
  function Fetched(o: Oracle, at: nat, prior: seq<Vec3>, j: nat): Vec3
    requires j < |prior|
  {
    if o.ok(SamplePos(at, j)) then Decode(Received(o, SamplePos(at, j), 6)) else prior[j]
  }

  /**
   * The caller's array after drv_lis2dh_get_acc(v, n) as written: every
   * iteration shifts v[0] rather than v[i], so v[0] is shifted n times and
   * v[1..n) not at all; entries from n on are untouched.
   */
  function AccAfter(o: Oracle, at: nat, prior: seq<Vec3>, n: nat): (r: seq<Vec3>)
    requires n <= |prior|
    ensures |r| == |prior|
    ensures forall j :: n <= j < |prior| ==> r[j] == prior[j]
    ensures forall j :: 0 < j < n ==> r[j] == Fetched(o, at, prior, j)
    ensures n > 0 ==> r[0] == ShiftTimes(Fetched(o, at, prior, 0), n)
  {
    seq<Vec3>(|prior|, (j: nat) requires j < |prior| => AccSlot(o, at, prior, n, j))
  }

  /** Slot j of AccAfter(o, at, prior, n). */
  function AccSlot(o: Oracle, at: nat, prior: seq<Vec3>, n: nat, j: nat): Vec3
    requires n <= |prior| && j < |prior|
  {
    if j == 0 && n > 0 then ShiftTimes(Fetched(o, at, prior, 0), n)
    else if j < n then Fetched(o, at, prior, j)
    else prior[j]
  }

  /**
   * One iteration of the reader: sample i's bytes (the received ones, or its
   * own storage when the data transfer fails) go into v[i], then v[0] is
   * shifted.
   */
  lemma AccStep(o: Oracle, at: nat, prior: seq<Vec3>, i: nat, cur: seq<Vec3>, data: seq<bv8>)
    requires i < |prior| && cur == AccAfter(o, at, prior, i)
    requires data == if o.ok(SamplePos(at, i)) then Received(o, SamplePos(at, i), 6) else Encode(cur[i])
    ensures var next := cur[i := Decode(data)];
      next[0 := Shr8(next[0])] == AccAfter(o, at, prior, i + 1)
  {
    DecodeEncode(cur[i]);
    assert Decode(data) == Fetched(o, at, prior, i);
    var next := cur[i := Decode(data)];
    var r := AccAfter(o, at, prior, i + 1);
    assert next[0 := Shr8(next[0])] == r by {
      if i == 0 {
        assert ShiftTimes(Fetched(o, at, prior, 0), 1) == Shr8(Fetched(o, at, prior, 0));
      }
    }
  }

  /** The bus events of n sample reads: each a range read of 6 bytes from OUT_X_L. */
  function AccEvents(n: nat): (es: seq<Event>)
    ensures |es| == 2 * n
    ensures forall j :: 0 <= j < n ==> es[2 * j] == Send(LIS2DH_ADDR, [OUT_X_L | 0x80], false)
    ensures forall j :: 0 <= j < n ==> es[2 * j + 1] == Receive(LIS2DH_ADDR, 6, true)
  {
    if n == 0 then [] else AccEvents(n - 1) + [Send(LIS2DH_ADDR, [OUT_X_L | 0x80], false), Receive(LIS2DH_ADDR, 6, true)]
  }

  /**
   * The array the reader evidently means to produce: each of the first n
   * samples shifted once, so that every axis whose read succeeded holds the
   * signed high byte the device delivered.
   */
  function IntendedSamples(o: Oracle, at: nat, prior: seq<Vec3>, n: nat): (r: seq<Vec3>)
    requires n <= |prior|
    ensures |r| == |prior|
    ensures forall j :: n <= j < |prior| ==> r[j] == prior[j]
    ensures forall j, a :: 0 <= j < n && 0 <= a < 3 && o.ok(SamplePos(at, j))
              ==> Signed(r[j][a]) == SignedByte(o.rx(SamplePos(at, j), 2 * a + 1))
  {
    var r := seq<Vec3>(|prior|, (j: nat) requires j < |prior| => IntendedSlot(o, at, prior, n, j));
    forall j | 0 <= j < n && o.ok(SamplePos(at, j)) {
      ShiftKeepsHighByte(Received(o, SamplePos(at, j), 6));
    }
    r
  }

  /** Slot j of IntendedSamples(o, at, prior, n). */
  function IntendedSlot(o: Oracle, at: nat, prior: seq<Vec3>, n: nat, j: nat): Vec3
    requires n <= |prior| && j < |prior|
  {
    if j < n then Shr8(Fetched(o, at, prior, j)) else prior[j]
  }

  /** One iteration of the corrected reader: sample i is read into v[i] and v[i] itself is shifted. */
  lemma IntendedStep(o: Oracle, at: nat, prior: seq<Vec3>, i: nat, cur: seq<Vec3>, data: seq<bv8>)
    requires i < |prior| && cur == IntendedSamples(o, at, prior, i)
    requires data == if o.ok(SamplePos(at, i)) then Received(o, SamplePos(at, i), 6) else Encode(cur[i])
    ensures cur[i := Shr8(Decode(data))] == IntendedSamples(o, at, prior, i + 1)
  {
    DecodeEncode(cur[i]);
    assert Decode(data) == Fetched(o, at, prior, i);
  }

  /**
   * The reader as written departs from the intended one: two samples read as
   * bytes 0x01 throughout (each axis 0x0101 = 257) come back as [0, 0, 0]
   * and [257, 257, 257] instead of [1, 1, 1] twice.
   */
  lemma GetAccShiftsOnlyFirstSample()
    ensures var o := Oracle(k => true, (k, j) => 0x01);
      var prior: seq<Vec3> := [[0, 0, 0], [0, 0, 0]];
      && AccAfter(o, 0, prior, 2) == [[0, 0, 0], [257, 257, 257]]
      && IntendedSamples(o, 0, prior, 2) == [[1, 1, 1], [1, 1, 1]]
  {
    var o := Oracle(k => true, (k, j) => 0x01);
    var prior: seq<Vec3> := [[0, 0, 0], [0, 0, 0]];
    var raw := Received(o, 1, 6);
    assert raw == [1, 1, 1, 1, 1, 1];
    assert Decode(raw) == [257, 257, 257];
    assert Received(o, 3, 6) == raw;
    assert Shr8([257, 257, 257]) == [1, 1, 1];
    assert ShiftTimes([257, 257, 257], 2) == [0, 0, 0];
  }
}

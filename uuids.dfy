/** The UUIDs the simulator hands out in place of random ones: a version-4
    most-significant word shaped from one 60-bit draw, and a least-significant
    word made of the variant marker and a Java `int` counter. */
module Uuids {
  import opened JavaBits

  /** The 64 bits of a Java long read as an unsigned number. */
  type Word = x: int | 0 <= x < 0x1_0000_0000_0000_0000

  /** java.util.UUID: two longs. The most-significant one is built with bit
      operations and kept as a bit pattern; the least-significant one is kept
      as the unsigned value of its bits. */
  datatype Uuid = Uuid(mostSigBits: bv64, leastSigBits: Word) {

    /** UUID.version(): bits 12-15 of the most-significant word. */
    function Version(): bv64 {
      (mostSigBits >> 12) & 0xF
    }

    /** UUID.variant(): 0 when bit 63 of the least-significant word is clear,
        2 (the layout of RFC 4122) when the top two bits are 10, otherwise the
        top three bits (6 or 7). */
    function Variant(): int {
      if leastSigBits < 0x8000_0000_0000_0000 then 0
      else if leastSigBits < 0xC000_0000_0000_0000 then 2
      else leastSigBits / 0x2000_0000_0000_0000
    }
  }

  /** The exclusive upper bound of the draw, 1L << 60. */
  const DrawBound: bv64 := 0x1000_0000_0000_0000

  /** The most-significant word built from the draw: bits 0-11 of the draw stay
      in place, the version nibble 4 takes bits 12-15, and draw bits 12-59 move
      up to bits 16-63. */
  function ShapeMsb(draw: bv64): (msb: bv64)
    ensures (msb >> 12) & 0xF == 4
  {
    ((draw << 4) & 0xFFFF_FFFF_FFFF_0000) | 0x4000 | (draw & 0xFFF)
  }

  /** The shaping keeps draw bits 0-11 in place and moves draw bits 12-59 to
      bits 16-63, whatever was drawn. */
  lemma ShapeMsbKeepsDraw(draw: bv64)
    ensures ShapeMsb(draw) & 0xFFF == draw & 0xFFF
    ensures ShapeMsb(draw) >> 16 == (draw >> 12) & 0xFFFF_FFFF_FFFF
  {
  }

  /** Recovers the 60 drawn bits from a shaped most-significant word. */
  function DrawOf(msb: bv64): (draw: bv64)
    ensures draw < DrawBound
    ensures draw & 0xFFF == msb & 0xFFF
  {
    ((msb >> 16) << 12) | (msb & 0xFFF)
  }

  /** No drawn bit is lost: the draw is recovered exactly from the word. */
  lemma ShapeMsbRoundTrip(draw: bv64)
    requires draw < DrawBound
    ensures DrawOf(ShapeMsb(draw)) == draw
  {
  }

  /** Every version-4 word is the shape of exactly one draw, so the shaping is
      a bijection between the draws and the version-4 words. */
  lemma ShapeMsbOnto(msb: bv64)
    requires (msb >> 12) & 0xF == 4
    ensures ShapeMsb(DrawOf(msb)) == msb
  {
  }

  /** The least-significant word, (1L << 63) | counter, where the int counter is
      sign-extended before the OR. On bit-vectors this is
      `LongMin | SignExtend(b)` of JavaBits, b being the counter's 32 bits, read
      as an unsigned number; it is written here on integers. A non-negative
      counter only gains bit 63; a negative one sign-extends to 2^64 + counter,
      whose bit 63 is already set. */
  function LsbOf(counter: Int32): (lsb: Word)
    ensures lsb >= 0x8000_0000_0000_0000
    ensures counter >= 0 ==> lsb - 0x8000_0000_0000_0000 == counter
    ensures counter < 0 ==> lsb >= 0xFFFF_FFFF_8000_0000
  {
    if counter >= 0 then 0x8000_0000_0000_0000 + counter
    else 0x1_0000_0000_0000_0000 + counter
  }

  /** No two int counter values give the same least-significant word. */
  lemma LsbOfInjective(c1: Int32, c2: Int32)
    requires c1 != c2
    ensures LsbOf(c1) != LsbOf(c2)
  {
  }

  /** The variant is the RFC 4122 one exactly while the counter is a
      non-negative int; from Integer.MIN_VALUE on it reads as 7 (reserved). */
  lemma LsbVariant(msb: bv64, counter: Int32)
    ensures Uuid(msb, LsbOf(counter)).Variant() == (if counter >= 0 then 2 else 7)
  {
  }

  /** The UUID one call returns, given its draw and the counter it finds. */
  function MakeUuid(draw: bv64, counter: Int32): (u: Uuid)
    ensures u.Version() == 4
    ensures u.leastSigBits >= 0x8000_0000_0000_0000
  {
    Uuid(ShapeMsb(draw), LsbOf(counter))
  }

  /** A draw of 0 with the counter at 0 gives msb 0x4000 and lsb 1L << 63. */
  lemma FirstUuidOfZeroDraw()
    ensures MakeUuid(0, 0) == Uuid(0x4000, 0x8000_0000_0000_0000)
  {
  }

  /** The counter after n post-increments from its initial 0: it counts the
      calls until the first overflow. */
  function CounterAfter(n: nat): (c: Int32)
    ensures n <= IntMax ==> c == n
  {
    if n == 0 then 0 else Increment(CounterAfter(n - 1))
  }

  /** The UUIDs that successive calls on a fresh instance return, given the
      draws they take in order. */
  function Issued(draws: seq<bv64>): (us: seq<Uuid>)
    ensures |us| == |draws|
  {
    if |draws| == 0 then []
    else Issued(draws[..|draws| - 1]) + [MakeUuid(draws[|draws| - 1], CounterAfter(|draws| - 1))]
  }

  /** Call i returns the UUID of draw i and counter value i. */
  lemma {:induction false} IssuedAt(draws: seq<bv64>, i: nat)
    requires i < |draws|
    ensures Issued(draws)[i] == MakeUuid(draws[i], CounterAfter(i))
    decreases |draws|
  {
    if i < |draws| - 1 {
      var prefix := draws[..|draws| - 1];
      IssuedAt(prefix, i);
      assert prefix[i] == draws[i];
    }
  }

  /** Over its first 2^32 values the counter counts up to Integer.MAX_VALUE and
      then on from Integer.MIN_VALUE: call k sees k, read as a 32-bit int. */
  lemma {:induction false} CounterAfterValue(k: nat)
    requires k < 0x1_0000_0000
    ensures CounterAfter(k) == if k <= IntMax then k else k - 0x1_0000_0000
  {
    if k > 0 {
      CounterAfterValue(k - 1);
    }
  }

  /** After 2^32 calls the counter is back at 0. */
  lemma CounterWrapsAround()
    ensures CounterAfter(0x1_0000_0000) == 0
  {
    CounterAfterValue(0x1_0000_0000 - 1);
  }

  /** The first 2^32 UUIDs of an instance are pairwise distinct, whatever the
      draws: their least-significant words already differ. */
  lemma IssuedDistinct(draws: seq<bv64>)
    requires |draws| <= 0x1_0000_0000
    ensures forall i, j :: 0 <= i < j < |draws| ==>
              Issued(draws)[i].leastSigBits != Issued(draws)[j].leastSigBits
  {
    var us := Issued(draws);
    forall i, j | 0 <= i < j < |draws|
      ensures us[i].leastSigBits != us[j].leastSigBits
    {
      IssuedAt(draws, i);
      IssuedAt(draws, j);
      CounterAfterValue(i);
      CounterAfterValue(j);
      LsbOfInjective(CounterAfter(i), CounterAfter(j));
    }
  }

  /** One more call appends one UUID, built from its draw and the counter the
      earlier calls left. */
  lemma IssuedAppend(draws: seq<bv64>, draw: bv64)
    ensures Issued(draws + [draw]) == Issued(draws) + [MakeUuid(draw, CounterAfter(|draws|))]
  {
    assert (draws + [draw])[..|draws|] == draws;
  }

  /** Within the first 2^32 calls, the UUID a call returns differs from the
      UUIDs of all earlier calls. */
  lemma IssuedLastIsNew(draws: seq<bv64>)
    requires 0 < |draws| <= 0x1_0000_0000
    ensures forall i :: 0 <= i < |draws| - 1 ==> Issued(draws)[i] != Issued(draws)[|draws| - 1]
  {
    IssuedDistinct(draws);
    var us := Issued(draws);
    forall i | 0 <= i < |draws| - 1
      ensures us[i] != us[|draws| - 1]
    {
      assert us[i].leastSigBits != us[|draws| - 1].leastSigBits;
    }
  }

  /** The bound is tight: call 2^32 repeats the least-significant word of the
      first call. */
  lemma IssuedRepeatsAfterWrap(draws: seq<bv64>)
    requires |draws| > 0x1_0000_0000
    ensures Issued(draws)[0x1_0000_0000].leastSigBits == Issued(draws)[0].leastSigBits
  {
    IssuedAt(draws, 0);
    IssuedAt(draws, 0x1_0000_0000);
    CounterWrapsAround();
  }
}

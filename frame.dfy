/**
 * The line sampler of the PCjr keyboard link: nine samples of the serial
 * line become a 9-bit frame (eight data bits and a parity bit), and the
 * frame is kept or dropped by the test the firmware applies to it.
 *
 * A sample is the level of the line: `true` is high (idle), `false` is low.
 * A low sample contributes a 1 bit. The frame is an `unsigned short` in the
 * firmware and a `bv16` here; the bit counter `i` and the set-bit counter
 * `d` are `unsigned char`s, so they are `bv8` here.
 */
module Frame {

  /** Bit `i` of a frame value. */
  predicate BitSet(c: bv16, i: bv8)
    requires i < 16
  {
    c & (1 << i) != 0
  }

  /** The number of samples among the first `n` that read the line low. */
  function LowCount(samples: seq<bool>, n: bv8): nat
    requires n as int <= |samples|
  {
    if n == 0 then 0 else LowCount(samples, n - 1) + (if samples[n - 1] then 0 else 1)
  }

  /**
   * The value accumulated from the first `n` samples: the value from the
   * first `n - 1`, with bit `n - 1` set when sample `n - 1` read the line low.
   */
  function FrameUpTo(samples: seq<bool>, n: bv8): bv16
    requires n as int <= |samples| && n <= 9
  {
    if n == 0 then 0
    else FrameUpTo(samples, n - 1) | (if samples[n - 1] then 0 else 1 << (n - 1))
  }

  /** The frame read from all nine samples. */
  function FrameOf(samples: seq<bool>): bv16
    requires |samples| == 9
  {
    FrameUpTo(samples, 9)
  }

  /** No bit at or above `n` is set in the value accumulated from `n` samples. */
  lemma {:induction false} FrameUpToBelow(samples: seq<bool>, n: bv8)
    requires n as int <= |samples| && n <= 9
    ensures FrameUpTo(samples, n) < 1 << n
  {
    if n > 0 {
      FrameUpToBelow(samples, n - 1);
    }
  }

  /** Bit `i` of the accumulated value is set exactly when sample `i` read low. */
  lemma {:induction false} FrameUpToBit(samples: seq<bool>, n: bv8, i: bv8)
    requires n as int <= |samples| && n <= 9 && i < n
    ensures BitSet(FrameUpTo(samples, n), i) <==> !samples[i]
  {
    if i < n - 1 {
      FrameUpToBit(samples, n - 1, i);
    } else {
      FrameUpToBelow(samples, n - 1);
    }
  }

  /** A frame has nine bits: no bit above the parity bit is set. */
  lemma FrameNineBits(samples: seq<bool>)
    requires |samples| == 9
    ensures FrameOf(samples) < 0x200
  {
    FrameUpToBelow(samples, 9);
  }

  /** Every bit of the frame mirrors its sample: set exactly when the line read low. */
  lemma FrameBits(samples: seq<bool>)
    requires |samples| == 9
    ensures forall i: bv8 :: i < 9 ==> (BitSet(FrameOf(samples), i) <==> !samples[i])
  {
    forall i: bv8 | i < 9
      ensures BitSet(FrameOf(samples), i) <==> !samples[i]
    {
      FrameUpToBit(samples, 9, i);
    }
  }

  /** The number of set bits among bits `0 .. n-1` of `c`. */
  function Popcount(c: bv16, n: bv8): (k: nat)
    requires n <= 16
    ensures k <= n as nat
  {
    if n == 0 then 0 else Popcount(c, n - 1) + (if BitSet(c, n - 1) then 1 else 0)
  }

  /**
   * The acceptance test of the firmware, as written: the frame is kept when
   * `(c & 0x100) ^ (d & 1)` is non-zero, `d` being the number of set bits in
   * the low byte.
   */
  predicate Accepts(c: bv16)
  {
    (c & 0x100) ^ ((Popcount(c, 8) % 2) as bv16) != 0
  }

  /** Whether the frame read from `samples` is kept. */
  predicate FrameAccepted(samples: seq<bool>)
    requires |samples| == 9
  {
    Accepts(FrameOf(samples))
  }

  /**
   * Because 0x100 and 1 are different bits, the test keeps a frame whenever
   * bit 8 is set, and otherwise only when the low byte has an odd number of
   * set bits: it drops exactly the frames with bit 8 clear and an even count.
   */
  lemma AcceptsIff(c: bv16)
    ensures Accepts(c) <==> BitSet(c, 8) || Popcount(c, 8) % 2 == 1
  {
    var p := Popcount(c, 8) % 2;
    assert p == 0 || p == 1;
    if p == 0 {
      assert (p as bv16) == 0;
    } else {
      assert (p as bv16) == 1;
    }
  }

  /** Counting set bits of a value whose bits mirror the samples counts low samples. */
  lemma {:induction false} PopcountOfSamples(c: bv16, samples: seq<bool>, n: bv8)
    requires n as int <= |samples| && n <= 9
    requires forall i: bv8 :: i < n ==> (BitSet(c, i) <==> !samples[i])
    ensures Popcount(c, n) == LowCount(samples, n)
  {
    if n > 0 {
      PopcountOfSamples(c, samples, n - 1);
    }
  }

  /**
   * In terms of the samples: a frame is kept exactly when the parity sample
   * read low, or an odd number of the eight data samples read low.
   */
  lemma FrameAcceptedIff(samples: seq<bool>)
    requires |samples| == 9
    ensures FrameAccepted(samples) <==> !samples[8] || LowCount(samples, 8) % 2 == 1
  {
    var c := FrameOf(samples);
    FrameBits(samples);
    PopcountOfSamples(c, samples, 8);
    AcceptsIff(c);
  }

  /**
   * Every frame with odd parity over all nine bits is kept: if the keyboard
   * sends odd parity, every frame it sends intact is kept.
   */
  lemma OddParityFrameAccepted(samples: seq<bool>)
    requires |samples| == 9
    requires LowCount(samples, 9) % 2 == 1
    ensures FrameAccepted(samples)
  {
    FrameAcceptedIff(samples);
  }

  /**
   * The test does not catch every single-bit error: the frame 0x001 (odd
   * parity, kept) and the frame 0x101, which differs from it in the parity
   * sample only, are both kept.
   */
  lemma ParityFlipNotDetected()
    ensures FrameAccepted([false, true, true, true, true, true, true, true, true])
    ensures FrameAccepted([false, true, true, true, true, true, true, true, false])
  {
    FrameAcceptedIff([false, true, true, true, true, true, true, true, true]);
    FrameAcceptedIff([false, true, true, true, true, true, true, true, false]);
  }

  /**
   * A frame whose parity sample read high is dropped when an even number of
   * its data samples read low.
   */
  lemma ParityHighEvenDataDropped(samples: seq<bool>)
    requires |samples| == 9 && samples[8]
    requires LowCount(samples, 8) % 2 == 0
    ensures !FrameAccepted(samples)
  {
    FrameAcceptedIff(samples);
  }

  /** The low bit of a byte counter `d`, widened, is the count modulo 2. */
  lemma CounterLowBit(d: bv8)
    ensures (d & 1) as bv16 == ((d as nat % 2) as bv16)
  {
  }

  /**
   * One turn of the sampling loop: sample `i` read low sets bit `i` of the
   * value accumulated so far.
   */
  method ReadBit(samples: seq<bool>, i: bv8, c: bv16) returns (next: bv16)
    requires i as int < |samples| && i < 9
    requires c == FrameUpTo(samples, i)
    ensures next == FrameUpTo(samples, i + 1)
  {
    next := c;
    if !samples[i] {
      next := next | (1 << i);
    }
  }

  /** Samples the nine bits of a frame into `c`, lowest bit first. */
  method ReadFrame(samples: seq<bool>) returns (c: bv16)
    requires |samples| == 9
    ensures c == FrameOf(samples)
  {
    c := 0;
    var i: bv8 := 0;
    while i < 9
      invariant i <= 9
      invariant c == FrameUpTo(samples, i)
    {
      c := ReadBit(samples, i, c);
      i := i + 1;
    }
  }

  /** One turn of the counting loop: bit `i` of `c`, when set, adds one to `d`. */
  method CountBit(c: bv16, i: bv8, d: bv8) returns (next: bv8)
    requires i < 8
    requires d as nat == Popcount(c, i)
    ensures next as nat == Popcount(c, i + 1)
  {
    next := d;
    if c & (1 << i) != 0 {
      next := next + 1;
    }
  }

  /** Counts the set bits of the low byte of `c` into the byte counter `d`. */
  method CountLowByte(c: bv16) returns (d: bv8)
    ensures d as nat == Popcount(c, 8)
  {
    d := 0;
    var i: bv8 := 0;
    while i < 8
      invariant i <= 8
      invariant d as nat == Popcount(c, i)
    {
      d := CountBit(c, i, d);
      i := i + 1;
    }
  }
}

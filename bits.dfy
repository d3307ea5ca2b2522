/** Bit-level helpers shared by the coin draws and the figure bitmasks:
    0/1 values, powers of two, little-endian packing of a bit sequence into
    a number, and the `u8` `|=` step of src/lib.rs. */
module Bits {

  /** A single 0/1 value: one coin draw (`gen_range(0..=1)`) or one bit of a figure. */
  type Bit = b: int | 0 <= b <= 1

  /** Rust's `u8` as a range of `int`. */
  type u8 = x: int | 0 <= x < 0x100

  function Pow2(n: nat): (p: nat)
    ensures p >= 1
  {
    if n == 0 then 1 else 2 * Pow2(n - 1)
  }

  /** The number whose bit i is bits[i] (bits[0] is the least significant). */
  function Pack(bits: seq<Bit>): (n: nat)
    ensures n < Pow2(|bits|)
  {
    if bits == [] then 0 else bits[0] + 2 * Pack(bits[1..])
  }

  /** Bit i of n, read off by repeated halving. */
  function BitAt(n: nat, i: nat): Bit
  {
    if i == 0 then n % 2 else BitAt(n / 2, i - 1)
  }

  /** Packing is lossless: bit i of the packed number is bits[i]. */
  lemma {:induction false} PackBitAt(bits: seq<Bit>, i: nat)
    requires i < |bits|
    ensures BitAt(Pack(bits), i) == bits[i]
  {
    var n := Pack(bits);
    assert n % 2 == bits[0] && n / 2 == Pack(bits[1..]);
    if i > 0 {
      PackBitAt(bits[1..], i - 1);
    }
  }

  /** Two bit sequences of one length pack to the same number only if they are equal. */
  lemma PackInjective(s: seq<Bit>, t: seq<Bit>)
    requires |s| == |t| && Pack(s) == Pack(t)
    ensures s == t
  {
    forall i | 0 <= i < |s|
      ensures s[i] == t[i]
    {
      PackBitAt(s, i);
      PackBitAt(t, i);
    }
  }

  /** Appending a bit adds it at the next power of two. */
  lemma {:induction false} PackSnoc(bits: seq<Bit>, b: Bit)
    ensures Pack(bits + [b]) == Pack(bits) + if b == 1 then Pow2(|bits|) else 0
  {
    if bits == [] {
      assert [b][1..] == [];
    } else {
      assert (bits + [b])[1..] == bits[1..] + [b];
      PackSnoc(bits[1..], b);
    }
  }

  /** Six ones pack to 63 and six zeros to 0 (any length: 2^n - 1 and 0). */
  lemma {:induction false} PackConstant(bits: seq<Bit>, b: Bit)
    requires forall i :: 0 <= i < |bits| ==> bits[i] == b
    ensures Pack(bits) == b * (Pow2(|bits|) - 1)
  {
    if bits != [] {
      PackConstant(bits[1..], b);
    }
  }

  /** Setting a clear single-bit mask m above x is adding m. */
  lemma OrAdds(x: bv8, m: bv8)
    requires m == 1 || m == 2 || m == 4 || m == 8 || m == 16 || m == 32 || m == 64 || m == 128
    requires x < m
    ensures (x | m) as int == x as int + m as int
  {
  }

  /** On a `u8`, `1 << i` is the single-bit mask 2^i. */
  lemma ShiftIsPow2(i: nat)
    requires i < 8
    ensures ((1 as bv8) << i) as int == Pow2(i)
    ensures var m: bv8 := 1 << i;
      m == 1 || m == 2 || m == 4 || m == 8 || m == 16 || m == 32 || m == 64 || m == 128
  {
    if i == 7 {
      assert Pow2(7) == 128;
    }
  }

  lemma LessAsInt(x: bv8, y: bv8)
    requires x as int < y as int
    ensures x < y
  {
  }

  /** `x |= 1 << i` on a `u8` whose bits from i upwards are clear adds 2^i. */
  lemma SetBitAdds(x: bv8, i: nat)
    requires i < 8 && x as int < Pow2(i)
    ensures (x | (1 << i)) as int == x as int + Pow2(i)
  {
    ShiftIsPow2(i);
    LessAsInt(x, 1 << i);
    OrAdds(x, 1 << i);
  }

  /** A number below 64 is the sum of its six binary digits. */
  lemma SixBits(a: nat)
    requires a < 64
    ensures a == 32 * (a / 32 % 2) + 16 * (a / 16 % 2) + 8 * (a / 8 % 2)
               + 4 * (a / 4 % 2) + 2 * (a / 2 % 2) + a % 2
  {
    assert a / 2 == 2 * (a / 4) + a / 2 % 2;
    assert a / 4 == 2 * (a / 8) + a / 4 % 2;
    assert a / 8 == 2 * (a / 16) + a / 8 % 2;
    assert a / 16 == 2 * (a / 32) + a / 16 % 2;
  }
}

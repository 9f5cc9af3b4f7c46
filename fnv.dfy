/**
 * `hashString` of src/controllers/processing_sim_data.js: the 32-bit
 * FNV-1a hash (section 2 of the IETF draft draft-eastlake-fnv), fed with
 * the UTF-16 code units `charCodeAt` reads rather than with bytes, and the
 * fallback seed and longitude the matcher derives from it.
 */
module Fnv {
  /** A UTF-16 code unit, as `charCodeAt` returns it. */
  type CodeUnit = u: int | 0 <= u < 0x1_0000

  const OffsetBasis: bv32 := 0x811C_9DC5
  const Prime: bv32 := 0x0100_0193

  /**
   * One round: `h ^= c` on the 32-bit pattern, then `Math.imul(h, Prime)`,
   * whose low 32 bits are the product modulo 2^32.
   */
  function Round(h: bv32, c: CodeUnit): bv32 {
    (h ^ (c as bv16) as bv32) * Prime
  }

  /**
   * The code units of one character: itself below U+10000, otherwise a
   * high and a low surrogate.
   */
  function CharUnits(c: char): (r: seq<CodeUnit>)
    ensures 1 <= |r| <= 2
    ensures (c as int) < 0x1_0000 <==> |r| == 1
    ensures |r| == 1 ==> r[0] == c as int
    ensures |r| == 2 ==>
      && 0xD800 <= r[0] < 0xDC00 && 0xDC00 <= r[1] < 0xE000
      && (r[0] as int - 0xD800) * 0x400 + (r[1] as int - 0xDC00) + 0x1_0000 == c as int
  {
    if (c as int) < 0x1_0000 then [c as int]
    else
      var v := c as int - 0x1_0000;
      [0xD800 + v / 0x400, 0xDC00 + v % 0x400]
  }

  /** The UTF-16 form of a string: what `s.length` counts and `charCodeAt` reads. */
  function Utf16(s: string): (u: seq<CodeUnit>)
    ensures |s| <= |u| <= 2 * |s|
  {
    if |s| == 0 then [] else Utf16(s[..|s| - 1]) + CharUnits(s[|s| - 1])
  }

  /** A string of characters below U+10000 is its own code units. */
  lemma {:induction false} Utf16OfBmp(s: string)
    requires forall i :: 0 <= i < |s| ==> (s[i] as int) < 0x1_0000
    ensures |Utf16(s)| == |s|
    ensures forall i :: 0 <= i < |s| ==> Utf16(s)[i] == s[i] as int
  {
    if |s| > 0 {
      Utf16OfBmp(s[..|s| - 1]);
    }
  }

  /** The FNV-1a state after the given code units: xor in the unit, then multiply, modulo 2^32. */
  function Fnv1a(units: seq<CodeUnit>): bv32 {
    if |units| == 0 then OffsetBasis
    else Round(Fnv1a(units[..|units| - 1]), units[|units| - 1])
  }

  /**
   * `hashString`: the loop over the code units, with `h >>> 0` read as
   * the unsigned value of the 32-bit state.
   */
  method HashString(s: string) returns (h: nat)
    ensures h == Fnv1a(Utf16(s)) as nat
    ensures h < 0x1_0000_0000
    ensures s == "" ==> h == 2166136261
  {
    var units := Utf16(s);
    var acc: bv32 := OffsetBasis;
    for i := 0 to |units|
      invariant acc == Fnv1a(units[..i])
    {
      assert units[..i + 1][..i] == units[..i];
      acc := Round(acc, units[i]);
    }
    assert units[..|units|] == units;
    h := acc as nat;
  }

  /** The draft's test vector for "a" (a character below 0x80 is one byte and one code unit alike). */
  lemma TestVectorA()
    ensures Fnv1a(Utf16("a")) == 0xE40C_292C
  {
    var e: seq<CodeUnit> := [0x61];
    assert Utf16("a") == e;
    assert e[..0] == [];
    assert Fnv1a(e[..0]) == OffsetBasis;
    assert Fnv1a(e) == Round(OffsetBasis, 0x61);
    assert Round(OffsetBasis, 0x61) == 0xE40C_292C;
  }

  /** Hashing a concatenation continues from the state the first part leaves. */
  lemma {:induction false} Fnv1aAppend(a: seq<CodeUnit>, b: seq<CodeUnit>)
    ensures Fnv1a(a + b) == FeedFrom(Fnv1a(a), b)
    decreases |b|
  {
    if |b| == 0 {
      assert a + b == a;
    } else {
      assert (a + b)[..|a + b| - 1] == a + b[..|b| - 1];
      Fnv1aAppend(a, b[..|b| - 1]);
    }
  }

  /** The FNV-1a loop started from an arbitrary state. */
  function FeedFrom(h: bv32, units: seq<CodeUnit>): bv32 {
    if |units| == 0 then h
    else Round(FeedFrom(h, units[..|units| - 1]), units[|units| - 1])
  }

  /** The fallback seed, `Math.abs(hash) % 360` (the hash is never negative). */
  function Seed(hash: nat): (seed: nat)
    ensures seed < 360
    ensures hash < 360 ==> seed == hash
    ensures (hash - seed) % 360 == 0
  {
    hash % 360
  }

  /** The fallback longitude, `seed - 180`. */
  function FallbackLongitude(hash: nat): (lon: int)
    ensures -180 <= lon <= 179
    ensures (lon + 180 - hash) % 360 == 0
  {
    Seed(hash) - 180
  }
}

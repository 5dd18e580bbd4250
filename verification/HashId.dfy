/** The transfer-ID hash of message_chan.c and its inverse. */
module HashId {
  import opened Words

  const FIRST_MULTIPLIER: nat := 0xbf58476d1ce4e5b9
  const SECOND_MULTIPLIER: nat := 0x94d049bb133111eb

  // Inverses of the two multipliers modulo 2^64.
  const FIRST_INVERSE: nat := 0x96de1b173f119089
  const SECOND_INVERSE: nat := 0x319642b2d24d8ec3

  function XorShift(value: nat, k: nat): nat {
    Xor(value, Shr(value, k))
  }

  function HashTransferId(id: nat): nat {
    var v1 := XorShift(id, 30);
    var v2 := MulWord(v1, FIRST_MULTIPLIER);
    var v3 := XorShift(v2, 27);
    var v4 := MulWord(v3, SECOND_MULTIPLIER);
    XorShift(v4, 31)
  }

  /** Undoes one xor-shift of a 64-bit word by at least 22 bits. */
  function UnXorShift(value: nat, k: nat): nat {
    Xor(value, Xor(Shr(value, k), Shr(value, 2 * k)))
  }

  function UnhashTransferId(hash: nat): nat {
    var v4 := UnXorShift(hash, 31);
    var v3 := MulWord(v4, SECOND_INVERSE);
    var v2 := UnXorShift(v3, 27);
    var v1 := MulWord(v2, FIRST_INVERSE);
    UnXorShift(v1, 30)
  }

  lemma XorWord(a: nat, b: nat)
    requires a < WORD && b < WORD
    ensures Xor(a, b) < WORD
  {
    WordIsPow2();
    XorBound(a, b, 64);
  }

  lemma XorShiftWord(v: nat, k: nat)
    requires v < WORD
    ensures XorShift(v, k) < WORD && UnXorShift(v, k) < WORD
  {
    ShrShrinks(v, k);
    ShrShrinks(v, 2 * k);
    XorWord(v, Shr(v, k));
    XorWord(Shr(v, k), Shr(v, 2 * k));
    XorWord(v, Xor(Shr(v, k), Shr(v, 2 * k)));
  }

  /** (v ^ a ^ b) with its two shifts telescopes back to v once the third shift is empty. */
  lemma XorShiftInverse(v: nat, k: nat)
    requires v < WORD && 3 * k >= 64
    ensures UnXorShift(XorShift(v, k), k) == v
    ensures XorShift(UnXorShift(v, k), k) == v
  {
    var a, b := Shr(v, k), Shr(v, 2 * k);
    ShrShr(v, k, k);
    ShrShr(v, k, 2 * k);
    ShrShr(v, 2 * k, k);
    assert Shr(v, 3 * k) == 0 by {
      WordIsPow2();
      ShrShr(v, 64, 3 * k - 64);
      ShrVanishes(v, 64);
      ShrShrinks(0, 3 * k - 64);
    }
    // the forward direction
    ShrXor(v, a, k);
    ShrXor(v, a, 2 * k);
    Telescope(v, a, b);
    // the backward direction
    ShrXor(v, Xor(a, b), k);
    ShrXor(a, b, k);
    XorAssoc(v, Xor(a, b), Xor(a, b));
    XorSelf(Xor(a, b));
  }

  lemma Telescope(v: nat, a: nat, b: nat)
    ensures Xor(Xor(v, a), Xor(Xor(a, b), b)) == v
  {
    XorAssoc(a, b, b);
    XorSelf(b);
    XorAssoc(v, a, a);
    XorSelf(a);
  }

  lemma OddMultiplierInverse(v: nat, c: nat, d: nat)
    requires v < WORD && (c * d) % WORD == 1
    ensures MulWord(MulWord(v, c), d) == v
  {
    var q, r := (v * c) / WORD, (v * c) % WORD;
    var p := (c * d) / WORD;
    assert c * d == p * WORD + 1;
    assert v * c == q * WORD + r;
    assert (v * c) * d == v * (c * d);
    assert (v * c) * d == q * WORD * d + r * d;
    assert v * (c * d) == v * (p * WORD) + v;
    assert r * d == (v * p - q * d) * WORD + v by {
      assert v * (p * WORD) == (v * p) * WORD;
      assert q * WORD * d == (q * d) * WORD;
    }
    ModuloUnique(r * d, WORD, v * p - q * d, v);
  }

  lemma MultipliersInvert()
    ensures (FIRST_MULTIPLIER * FIRST_INVERSE) % WORD == 1
    ensures (FIRST_INVERSE * FIRST_MULTIPLIER) % WORD == 1
    ensures (SECOND_MULTIPLIER * SECOND_INVERSE) % WORD == 1
    ensures (SECOND_INVERSE * SECOND_MULTIPLIER) % WORD == 1
  {
  }

  /** The hash is a bijection of the 64-bit words: it loses no ID ... */
  lemma UnhashAfterHash(id: nat)
    requires id < WORD
    ensures HashTransferId(id) < WORD
    ensures UnhashTransferId(HashTransferId(id)) == id
  {
    var v1 := XorShift(id, 30);
    var v2 := MulWord(v1, FIRST_MULTIPLIER);
    var v3 := XorShift(v2, 27);
    var v4 := MulWord(v3, SECOND_MULTIPLIER);
    XorShiftWord(id, 30);
    XorShiftWord(v2, 27);
    XorShiftWord(v4, 31);
    MultipliersInvert();
    XorShiftInverse(v4, 31);
    OddMultiplierInverse(v3, SECOND_MULTIPLIER, SECOND_INVERSE);
    XorShiftInverse(v2, 27);
    OddMultiplierInverse(v1, FIRST_MULTIPLIER, FIRST_INVERSE);
    XorShiftInverse(id, 30);
  }

  /** ... and reaches every word. */
  lemma HashAfterUnhash(hash: nat)
    requires hash < WORD
    ensures UnhashTransferId(hash) < WORD
    ensures HashTransferId(UnhashTransferId(hash)) == hash
  {
    var v4 := UnXorShift(hash, 31);
    var v3 := MulWord(v4, SECOND_INVERSE);
    var v2 := UnXorShift(v3, 27);
    var v1 := MulWord(v2, FIRST_INVERSE);
    XorShiftWord(hash, 31);
    XorShiftWord(v3, 27);
    XorShiftWord(v1, 30);
    MultipliersInvert();
    XorShiftInverse(v1, 30);
    OddMultiplierInverse(v2, FIRST_INVERSE, FIRST_MULTIPLIER);
    XorShiftInverse(v3, 27);
    OddMultiplierInverse(v4, SECOND_INVERSE, SECOND_MULTIPLIER);
    XorShiftInverse(hash, 31);
  }

  /** Distinct IDs share a bucket only through the mask: their full hashes differ. */
  lemma HashInjective(a: nat, b: nat)
    requires a < WORD && b < WORD && a != b
    ensures HashTransferId(a) != HashTransferId(b)
  {
    UnhashAfterHash(a);
    UnhashAfterHash(b);
  }
}

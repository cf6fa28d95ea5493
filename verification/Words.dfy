/**
  32-bit machine words and the bit fields of a PowerPC instruction.

  `unsigned long` is 32 bits wide on the target.  A word is an integer in [0, 2^32); sums and
  differences are wrapped explicitly.  `long` is the same word read in two's complement (`Signed`).
  The bitwise operators are defined digit by digit on naturals, and `Bit` characterises them.
 */
module Words {

  type Word = x: int | 0 <= x < 0x1_0000_0000

  function Wrap(x: int): (w: Word)
    ensures 0 <= x < 0x1_0000_0000 ==> w == x
  {
    x % 0x1_0000_0000
  }

  /** The address of the word that follows. */
  function Following(x: Word): Word {
    Wrap(x + 4)
  }

  function Signed(x: Word): int {
    if x >= 0x8000_0000 then x - 0x1_0000_0000 else x
  }

  lemma WrapAdd(x: int, y: int)
    ensures Wrap(Wrap(x) + y) == Wrap(x + y)
  {}

  lemma WrapSubtract(x: Word, y: Word)
    ensures Wrap(Wrap(x + y) - y) == x
  {}

  // ----- bitwise operators -----

  predicate Bit(x: nat, i: nat)
    decreases i, x
  {
    if i == 0 then x % 2 == 1 else Bit(x / 2, i - 1)
  }

  function And(x: nat, y: nat): nat {
    if x == 0 || y == 0 then 0
    else 2 * And(x / 2, y / 2) + if x % 2 == 1 && y % 2 == 1 then 1 else 0
  }

  function Or(x: nat, y: nat): nat {
    if x == 0 then y else if y == 0 then x
    else 2 * Or(x / 2, y / 2) + if x % 2 == 1 || y % 2 == 1 then 1 else 0
  }

  function Shl(x: nat, n: nat): (r: nat)
    ensures x > 0 ==> r > 0
    decreases n, x
  {
    if n == 0 then x else 2 * Shl(x, n - 1)
  }

  function Shr(x: nat, n: nat): nat
    decreases n, x
  {
    if n == 0 then x else Shr(x / 2, n - 1)
  }

  /** `(1 << n) - 1` */
  function Ones(n: nat): nat {
    if n == 0 then 0 else 2 * Ones(n - 1) + 1
  }

  lemma {:induction false} BitOfZero(i: nat)
    ensures !Bit(0, i)
  {
    if i != 0 {
      BitOfZero(i - 1);
    }
  }

  lemma {:induction false} BitAnd(x: nat, y: nat, i: nat)
    ensures Bit(And(x, y), i) == (Bit(x, i) && Bit(y, i))
    decreases i
  {
    BitOfZero(i);
    if i != 0 {
      BitAnd(x / 2, y / 2, i - 1);
      BitOfZero(i - 1);
    }
  }

  lemma {:induction false} BitOr(x: nat, y: nat, i: nat)
    ensures Bit(Or(x, y), i) == (Bit(x, i) || Bit(y, i))
    decreases i
  {
    BitOfZero(i);
    if i != 0 {
      BitOr(x / 2, y / 2, i - 1);
      BitOfZero(i - 1);
    }
  }

  lemma {:induction false} BitShl(x: nat, n: nat, i: nat)
    ensures Bit(Shl(x, n), i) == (i >= n && Bit(x, i - n))
    decreases n
  {
    if n != 0 && i != 0 {
      BitShl(x, n - 1, i - 1);
    }
  }

  lemma {:induction false} BitShr(x: nat, n: nat, i: nat)
    ensures Bit(Shr(x, n), i) == Bit(x, i + n)
    decreases n
  {
    if n != 0 {
      BitShr(x / 2, n - 1, i);
    }
  }

  lemma {:induction false} ShrMonotone(x: nat, y: nat, n: nat)
    requires x <= y
    ensures Shr(x, n) <= Shr(y, n)
    decreases n
  {
    if n != 0 {
      ShrMonotone(x / 2, y / 2, n - 1);
    }
  }

  lemma {:induction false} ShrDivides(x: nat, n: nat)
    ensures Shr(x, n) == x / Shl(1, n)
    decreases n
  {
    if n != 0 {
      ShrDivides(x / 2, n - 1);
      DivideTwice(x, Shl(1, n - 1));
    }
  }

  lemma DivideTwice(x: nat, p: nat)
    requires p > 0
    ensures x / 2 / p == x / (2 * p)
  {
    DivModStep(x, p);
    assert x == 2 * p * (x / (2 * p)) + x % (2 * p);
    assert x == 2 * (p * (x / 2 / p)) + 2 * (x / 2 % p) + x % 2;
    assert p * (x / 2 / p) == p * (x / (2 * p));
  }

  /** A mask of one bit, in arithmetic. */
  lemma {:induction false} AndOneBit(x: nat, n: nat)
    ensures And(x, Shl(1, n)) != 0 <==> x / Shl(1, n) % 2 == 1
    decreases n
  {
    if n == 0 {
      assert And(x / 2, 1 / 2) == 0;
    } else {
      var half := Shl(1, n - 1);
      AndOneBit(x / 2, n - 1);
      DivideTwice(x, half);
      assert And(x, 2 * half) == 2 * And(x / 2, half);
    }
  }

  /** Field extraction in arithmetic. */
  lemma ExtractArithmetic(w: nat, bits: nat, shift: nat)
    ensures Extract(w, bits, shift) == w / Shl(1, shift) % Shl(1, bits)
  {
    ShrDivides(w, shift);
    AndOnes(Shr(w, shift), bits);
  }

  /** The powers of two that instruction formats use. */
  lemma Powers()
    ensures Shl(1, 0) == 1 && Shl(1, 1) == 2 && Shl(1, 2) == 4 && Shl(1, 5) == 32
    ensures Shl(1, 10) == 1024 && Shl(1, 11) == 2048 && Shl(1, 14) == 0x4000 && Shl(1, 16) == 0x1_0000
    ensures Shl(1, 21) == 0x20_0000 && Shl(1, 24) == 0x100_0000 && Shl(1, 26) == 0x400_0000
  {
    assert Shl(1, 4) == 16 && Shl(1, 5) == 32 && Shl(1, 6) == 64;
    ShlProduct(5, 5);
    ShlProduct(5, 6);
    ShlProduct(4, 10);
    ShlProduct(5, 11);
    ShlProduct(5, 16);
    ShlProduct(10, 14);
    ShlProduct(5, 21);
  }

  lemma {:induction false} BitOnes(n: nat, i: nat)
    ensures Bit(Ones(n), i) == (i < n)
  {
    if n == 0 {
      BitOfZero(i);
    } else if i != 0 {
      BitOnes(n - 1, i - 1);
    }
  }

  /** Numbers with the same bits are equal. */
  lemma {:induction false} SameBits(x: nat, y: nat)
    requires forall i: nat :: Bit(x, i) == Bit(y, i)
    ensures x == y
    decreases x + y
  {
    assert Bit(x, 0) == Bit(y, 0);
    if x != 0 || y != 0 {
      forall i: nat ensures Bit(x / 2, i) == Bit(y / 2, i) {
        assert Bit(x, i + 1) == Bit(y, i + 1);
      }
      SameBits(x / 2, y / 2);
    }
  }

  /** A number is below 2^n exactly when it has no bit at or above `n`. */
  lemma {:induction false} NoHighBit(x: nat, n: nat, i: nat)
    requires x <= Ones(n) && i >= n
    ensures !Bit(x, i)
    decreases n
  {
    if n == 0 {
      BitOfZero(i);
    } else {
      NoHighBit(x / 2, n - 1, i - 1);
    }
  }

  lemma {:induction false} BelowPower(x: nat, n: nat)
    requires forall i: nat :: i >= n ==> !Bit(x, i)
    ensures x <= Ones(n)
    decreases n
  {
    if n == 0 {
      forall i: nat ensures Bit(x, i) == Bit(0, i) { BitOfZero(i); }
      SameBits(x, 0);
    } else {
      forall i: nat | i >= n - 1 ensures !Bit(x / 2, i) { assert !Bit(x, i + 1); }
      BelowPower(x / 2, n - 1);
    }
  }

  lemma {:induction false} OnesMonotone(m: nat, n: nat)
    requires m <= n
    ensures Ones(m) <= Ones(n)
  {
    if m < n {
      OnesMonotone(m, n - 1);
    }
  }

  lemma OnesWord()
    ensures Ones(32) == 0xFFFF_FFFF
  {
    assert Ones(8) == 255;
    assert Ones(16) == 65535;
    assert Ones(24) == 0xFF_FFFF;
  }

  lemma AndBounded(x: nat, y: nat)
    ensures And(x, y) <= x && And(x, y) <= y
  {}

  lemma AndOrDistribute(w: nat, x: nat, y: nat)
    ensures And(w, Or(x, y)) == Or(And(w, x), And(w, y))
  {
    forall i: nat ensures Bit(And(w, Or(x, y)), i) == Bit(Or(And(w, x), And(w, y)), i) {
      BitAnd(w, Or(x, y), i);
      BitOr(x, y, i);
      BitOr(And(w, x), And(w, y), i);
      BitAnd(w, x, i);
      BitAnd(w, y, i);
    }
    SameBits(And(w, Or(x, y)), Or(And(w, x), And(w, y)));
  }

  lemma OrAssociative(x: nat, y: nat, z: nat)
    ensures Or(Or(x, y), z) == Or(x, Or(y, z))
  {
    forall i: nat ensures Bit(Or(Or(x, y), z), i) == Bit(Or(x, Or(y, z)), i) {
      BitOr(Or(x, y), z, i);
      BitOr(x, y, i);
      BitOr(x, Or(y, z), i);
      BitOr(y, z, i);
    }
    SameBits(Or(Or(x, y), z), Or(x, Or(y, z)));
  }

  /** Two numbers share no bit. */
  ghost predicate Disjoint(x: nat, y: nat) {
    forall i: nat :: !(Bit(x, i) && Bit(y, i))
  }

  // ----- instruction fields -----

  /** The instruction bits that a field of `bits` bits, `shift` bits from the low end, occupies. */
  function FieldBits(bits: nat, shift: nat): nat {
    Shl(Ones(bits), shift)
  }

  function Extract(w: nat, bits: nat, shift: nat): nat {
    And(Shr(w, shift), Ones(bits))
  }

  function Insert(v: nat, bits: nat, shift: nat): nat {
    Shl(And(v, Ones(bits)), shift)
  }

  lemma BitField(bits: nat, shift: nat, i: nat)
    ensures Bit(FieldBits(bits, shift), i) == (shift <= i < shift + bits)
  {
    BitShl(Ones(bits), shift, i);
    if i >= shift {
      BitOnes(bits, i - shift);
    }
  }

  lemma BitExtract(w: nat, bits: nat, shift: nat, i: nat)
    ensures Bit(Extract(w, bits, shift), i) == (i < bits && Bit(w, i + shift))
  {
    BitAnd(Shr(w, shift), Ones(bits), i);
    BitShr(w, shift, i);
    BitOnes(bits, i);
  }

  lemma BitInsert(v: nat, bits: nat, shift: nat, i: nat)
    ensures Bit(Insert(v, bits, shift), i) == (shift <= i < shift + bits && Bit(v, i - shift))
  {
    BitShl(And(v, Ones(bits)), shift, i);
    if i >= shift {
      BitAnd(v, Ones(bits), i - shift);
      BitOnes(bits, i - shift);
    }
  }

  lemma ExtractInsert(v: nat, bits: nat, shift: nat)
    ensures Extract(Insert(v, bits, shift), bits, shift) == And(v, Ones(bits))
  {
    var x := Insert(v, bits, shift);
    forall i: nat ensures Bit(Extract(x, bits, shift), i) == Bit(And(v, Ones(bits)), i) {
      BitExtract(x, bits, shift, i);
      BitInsert(v, bits, shift, i + shift);
      BitAnd(v, Ones(bits), i);
      BitOnes(bits, i);
    }
    SameBits(Extract(x, bits, shift), And(v, Ones(bits)));
  }

  lemma InsertExtract(w: nat, bits: nat, shift: nat)
    ensures Insert(Extract(w, bits, shift), bits, shift) == And(w, FieldBits(bits, shift))
  {
    var v := Extract(w, bits, shift);
    forall i: nat ensures Bit(Insert(v, bits, shift), i) == Bit(And(w, FieldBits(bits, shift)), i) {
      BitInsert(v, bits, shift, i);
      if i >= shift {
        BitExtract(w, bits, shift, i - shift);
      }
      BitAnd(w, FieldBits(bits, shift), i);
      BitField(bits, shift, i);
    }
    SameBits(Insert(v, bits, shift), And(w, FieldBits(bits, shift)));
  }

  /** Bits outside a field do not disturb it. */
  lemma ExtractDisjoint(w: nat, x: nat, bits: nat, shift: nat)
    requires Disjoint(x, FieldBits(bits, shift))
    ensures Extract(Or(w, x), bits, shift) == Extract(w, bits, shift)
    ensures Extract(Or(x, w), bits, shift) == Extract(w, bits, shift)
  {
    forall i: nat
      ensures Bit(Extract(Or(w, x), bits, shift), i) == Bit(Extract(w, bits, shift), i)
      ensures Bit(Extract(Or(x, w), bits, shift), i) == Bit(Extract(w, bits, shift), i)
    {
      BitExtract(Or(w, x), bits, shift, i);
      BitExtract(Or(x, w), bits, shift, i);
      BitExtract(w, bits, shift, i);
      BitOr(w, x, i + shift);
      BitOr(x, w, i + shift);
      BitField(bits, shift, i + shift);
    }
    SameBits(Extract(Or(w, x), bits, shift), Extract(w, bits, shift));
    SameBits(Extract(Or(x, w), bits, shift), Extract(w, bits, shift));
  }

  lemma ExtractBounded(w: nat, bits: nat, shift: nat)
    ensures Extract(w, bits, shift) <= Ones(bits)
    ensures And(Extract(w, bits, shift), Ones(bits)) == Extract(w, bits, shift)
  {
    var v := Extract(w, bits, shift);
    AndBounded(Shr(w, shift), Ones(bits));
    LowBits(v, bits);
  }

  lemma WordBits(w: Word, i: nat)
    requires i >= 32
    ensures !Bit(w, i)
  {
    OnesWord();
    NoHighBit(w, 32, i);
  }

  /** A mask that holds the top `n` bits keeps them. */
  lemma HighBitsKept(w: Word, m: nat, n: nat, low: nat)
    requires n + low >= 32 && And(m, FieldBits(n, low)) == FieldBits(n, low)
    ensures Shr(And(w, m), low) == Shr(w, low)
  {
    forall i: nat ensures Bit(Shr(And(w, m), low), i) == Bit(Shr(w, low), i) {
      BitShr(And(w, m), low, i);
      BitShr(w, low, i);
      BitAnd(w, m, i + low);
      BitAnd(m, FieldBits(n, low), i + low);
      BitField(n, low, i + low);
      if i >= n {
        WordBits(w, i + low);
      }
    }
    SameBits(Shr(And(w, m), low), Shr(w, low));
  }

  /** Masking a number that already fits changes nothing. */
  lemma LowBits(v: nat, bits: nat)
    ensures And(v, Ones(bits)) == v <==> v <= Ones(bits)
  {
    AndBounded(v, Ones(bits));
    if v <= Ones(bits) {
      forall i: nat ensures Bit(And(v, Ones(bits)), i) == Bit(v, i) {
        if i >= bits { NoHighBit(v, bits, i); }
        BitAnd(v, Ones(bits), i);
        BitOnes(bits, i);
      }
      SameBits(And(v, Ones(bits)), v);
    }
  }

  lemma InsertBounded(v: nat, bits: nat, shift: nat)
    requires bits + shift <= 32
    ensures Insert(v, bits, shift) < 0x1_0000_0000
    ensures bits <= 31 ==> Insert(v, bits, shift) != 0xFFFF_FFFF
  {
    var x := Insert(v, bits, shift);
    OnesWord();
    forall i: nat | i >= 32 ensures !Bit(x, i) { BitInsert(v, bits, shift, i); }
    BelowPower(x, 32);
    if bits <= 31 && x == 0xFFFF_FFFF {
      var i := if shift == 0 then bits else 0;
      BitOnes(32, i);
      BitInsert(v, bits, shift, i);
    }
  }

  // ----- branch displacements -----

  /** Arithmetic shift right by two, as `data >>= 2` on a `long`. */
  function Sar2(x: Word): Word {
    Wrap(Signed(x) / 4)
  }

  /** The field value `parse_operand` computes for a byte displacement. */
  function EncodeDisplacement(d: Word, bits: nat): nat
    requires 1 <= bits
  {
    var x := And(Sar2(d), Ones(bits) / 2);
    if Signed(d) < 0 then Or(x, Shl(1, bits - 1)) else x
  }

  /** The byte displacement that a field value stands for: sign-extend, then multiply by four. */
  function DecodeDisplacement(f: nat, bits: nat): Word
    requires 1 <= bits
  {
    if And(f, Shl(1, bits - 1)) != 0 then Wrap(4 * (f - Shl(1, bits))) else Wrap(4 * f)
  }

  /** `d` is a multiple of four in the signed range [-2^(bits+1), 2^(bits+1)). */
  predicate InReach(d: Word, bits: nat) {
    d % 4 == 0 && 0 <= Signed(d) + Shl(1, bits + 1) < 2 * Shl(1, bits + 1)
  }

  lemma {:induction false} AndOnes(x: nat, n: nat)
    ensures Shl(1, n) == Ones(n) + 1
    ensures And(x, Ones(n)) == x % Shl(1, n)
    decreases n
  {
    if n != 0 {
      AndOnes(x / 2, n - 1);
      var p := Shl(1, n - 1);
      assert Ones(n) / 2 == Ones(n - 1);
      DivModStep(x, p);
    }
  }

  lemma DivModStep(x: nat, p: nat)
    requires p > 0
    ensures x % (2 * p) == 2 * ((x / 2) % p) + x % 2
  {
    var r := 2 * ((x / 2) % p) + x % 2;
    var q := (x / 2) / p;
    assert x == (2 * p) * q + r by {
      assert x / 2 == p * q + (x / 2) % p;
    }
    ModUnique(x, 2 * p, q, r);
  }

  lemma ModUnique(x: int, p: int, q: int, r: int)
    requires p > 0 && 0 <= r < p && x == p * q + r
    ensures x % p == r
  {
    var k := x / p - q;
    assert p * k == r - x % p;
    assert k >= 1 ==> p * k >= p;
    assert k <= -1 ==> p * k <= -p;
  }

  /** The top bit of a field, as an arithmetic test. */
  lemma {:induction false} TopBit(f: nat, n: nat)
    requires f < 2 * Shl(1, n)
    ensures And(f, Shl(1, n)) == if f >= Shl(1, n) then Shl(1, n) else 0
    decreases n
  {
    if n != 0 {
      TopBit(f / 2, n - 1);
    }
  }

  lemma {:induction false} SetTopBit(x: nat, n: nat)
    requires x < Shl(1, n)
    ensures Or(x, Shl(1, n)) == x + Shl(1, n)
    decreases n
  {
    if n != 0 {
      SetTopBit(x / 2, n - 1);
    }
  }

  lemma WideWord(n: nat)
    requires n <= 29
    ensures 1 <= Shl(1, n) <= 0x2000_0000
  {
    AndOnes(0, n);
    OnesMonotone(n, 29);
    OnesWord();
    assert Ones(32) == 2 * Ones(31) + 1 && Ones(31) == 2 * Ones(30) + 1 && Ones(30) == 2 * Ones(29) + 1;
  }

  /** `q mod p` for a quotient that is at most one period away from [0, p). */
  lemma NearMod(q: int, p: int)
    requires p > 0
    ensures q % p == q <==> 0 <= q < p
    ensures q % p == q + p <==> -p <= q < 0
  {
    if 0 <= q < p {
      ModUnique(q, p, 0, q);
    } else if -p <= q < 0 {
      ModUnique(q, p, -1, q + p);
    }
  }

  /** The encoder in arithmetic: the quotient modulo the half range, plus the half range when negative. */
  lemma EncodeArithmetic(d: Word, bits: nat)
    requires 1 <= bits <= 30
    ensures var p := Shl(1, bits - 1); var q := Signed(d) / 4;
            EncodeDisplacement(d, bits) == q % p + if q < 0 then p else 0
  {
    var p := Shl(1, bits - 1);
    var q := Signed(d) / 4;
    WideWord(bits - 1);
    assert Ones(bits) / 2 == Ones(bits - 1);
    AndOnes(Sar2(d), bits - 1);
    PowerDivides(q, bits - 1);
    if q < 0 {
      SetTopBit(q % p, bits - 1);
    }
  }

  /** Wrapping at 2^32 does not change the residue modulo a smaller power of two. */
  lemma PowerDivides(q: int, n: nat)
    requires n <= 32
    ensures Shl(1, n) > 0 && Wrap(q) % Shl(1, n) == q % Shl(1, n)
  {
    AndOnes(0, n);
    ShlProduct(n, 32 - n);
    OnesWord();
    AndOnes(0, 32);
    ModOfMod(q, Shl(1, n), Shl(1, 32 - n));
  }

  lemma ModOfMod(q: int, p: int, r: int)
    requires p > 0 && r > 0
    ensures p * r > 0 && q % (p * r) % p == q % p
  {
    var m := p * r;
    var k, w := q / m, q % m;
    calc {
      q;
      m * k + w;
      p * r * k + (p * (w / p) + w % p);
      { assert p * r * k == p * (r * k); }
      p * (r * k) + p * (w / p) + w % p;
      { assert p * (r * k + w / p) == p * (r * k) + p * (w / p); }
      p * (r * k + w / p) + w % p;
    }
    ModUnique(q, p, r * k + w / p, w % p);
  }

  lemma {:induction false} ShlProduct(m: nat, n: nat)
    ensures Shl(1, m) * Shl(1, n) == Shl(1, m + n)
    decreases m
  {
    if m != 0 {
      ShlProduct(m - 1, n);
    }
  }

  /** The round trips in arithmetic; `p` is half the field's range. */
  lemma FieldToQuotient(f: int, p: int, q: int, d: Word)
    requires 1 <= p <= 0x2000_0000 && 0 <= f < 2 * p
    requires q == (if f >= p then f - 2 * p else f) && d == Wrap(4 * q)
    ensures Signed(d) / 4 == q && q % p + (if q < 0 then p else 0) == f
  {
    NearMod(q, p);
  }

  lemma QuotientToField(d: Word, p: int, q: int, f: int)
    requires 1 <= p <= 0x2000_0000
    requires q == Signed(d) / 4 && f == q % p + if q < 0 then p else 0
    ensures Wrap(4 * if f >= p then f - 2 * p else f) == d <==> d % 4 == 0 && -4 * p <= Signed(d) < 4 * p
  {
    NearMod(q, p);
  }

  lemma DecodeArithmetic(f: nat, bits: nat, p: int)
    requires 1 <= bits <= 30 && f <= Ones(bits) && p == Shl(1, bits - 1)
    ensures 1 <= p <= 0x2000_0000 && f < 2 * p
    ensures DecodeDisplacement(f, bits) == Wrap(4 * if f >= p then f - 2 * p else f)
  {
    assert 1 <= p <= 0x2000_0000 by { WideWord(bits - 1); }
    assert Ones(bits) == 2 * p - 1 by { AndOnes(0, bits); }
    TopBit(f, bits - 1);
  }

  /** Printing a branch field as a displacement and encoding that displacement is the identity. */
  lemma EncodeDecode(f: nat, bits: nat)
    requires 1 <= bits <= 30 && f <= Ones(bits)
    ensures EncodeDisplacement(DecodeDisplacement(f, bits), bits) == f
  {
    var p: int, d := Shl(1, bits - 1), DecodeDisplacement(f, bits);
    DecodeArithmetic(f, bits, p);
    EncodeArithmetic(d, bits);
    FieldToQuotient(f, p, if f >= p then f - 2 * p else f, d);
  }

  /** An encoded displacement decodes to itself exactly when it is word aligned and in reach. */
  lemma DecodeEncode(d: Word, bits: nat)
    requires 1 <= bits <= 30
    ensures EncodeDisplacement(d, bits) <= Ones(bits)
    ensures DecodeDisplacement(EncodeDisplacement(d, bits), bits) == d <==> InReach(d, bits)
  {
    var p: int, f := Shl(1, bits - 1), EncodeDisplacement(d, bits);
    EncodedBound(d, bits, p);
    DecodeArithmetic(f, bits, p);
    QuotientToField(d, p, Signed(d) / 4, f);
    assert Shl(1, bits + 1) == 2 * Shl(1, bits) && Shl(1, bits) == 2 * p;
  }

  lemma EncodedBound(d: Word, bits: nat, p: int)
    requires 1 <= bits <= 30 && p == Shl(1, bits - 1)
    ensures EncodeDisplacement(d, bits) == Signed(d) / 4 % p + if Signed(d) / 4 < 0 then p else 0
    ensures EncodeDisplacement(d, bits) <= Ones(bits)
  {
    EncodeArithmetic(d, bits);
    assert Ones(bits) == 2 * p - 1 by { AndOnes(0, bits); }
  }

  // ----- the split ten-bit SPR and TBR numbers -----

  /** Exchanges the two five-bit halves of a ten-bit field. */
  function SwapHalves(x: nat): nat {
    Or(And(Shr(x, 5), 0x1f), Shl(And(x, 0x1f), 5))
  }

  lemma SwapArithmetic(x: nat)
    ensures SwapHalves(x) == x / 32 % 32 + 32 * (x % 32)
  {
    var lo, hi := x / 32 % 32, x % 32;
    assert Shr(x, 5) == x / 32 by {
      ShrDivides(x, 5);
      Powers();
    }
    assert Ones(5) == 0x1f && Shl(1, 5) == 32;
    AndOnes(x / 32, 5);
    AndOnes(x, 5);
    assert Shl(hi, 5) == 4 * Shl(hi, 3) == 16 * Shl(hi, 1) == 32 * hi;
    OrHigh(lo, hi, 5);
  }

  lemma {:induction false} OrHigh(lo: nat, hi: nat, n: nat)
    requires lo < Shl(1, n)
    ensures Or(lo, Shl(hi, n)) == lo + Shl(hi, n)
    decreases n
  {
    if n != 0 {
      OrHigh(lo / 2, hi, n - 1);
    }
  }

  /** The swap looks at ten bits; done twice it gives them back. */
  lemma SwapTwice(x: nat)
    ensures SwapHalves(x) < 1024 && SwapHalves(SwapHalves(x)) == x % 1024
    ensures SwapHalves(x) == 0 <==> x % 1024 == 0
  {
    SwapArithmetic(x);
    SwapArithmetic(SwapHalves(x));
    TenBitHalves(x);
    SwapNumbers(x / 32 % 32, x % 32, SwapHalves(x));
  }

  lemma TenBitHalves(x: nat)
    ensures x % 1024 == x % 32 + 32 * (x / 32 % 32)
  {
    assert x == 1024 * (x / 32 / 32) + 32 * (x / 32 % 32) + x % 32;
    ModUnique(x, 1024, x / 32 / 32, 32 * (x / 32 % 32) + x % 32);
  }

  lemma SwapNumbers(h: nat, l: nat, y: nat)
    requires h < 32 && l < 32 && y == h + 32 * l
    ensures y < 1024 && y / 32 % 32 == l && y % 32 == h
  {}
}

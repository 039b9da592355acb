/**
 * The 32-bit multiply-with-carry engine (`multiply_with_carry_engine_32`).
 *
 * The state is two 32-bit words, the value `x` and the carry `c`. A
 * `std::uint32_t` is modelled as the integers 0 .. 2^32 - 1, and every
 * wrapping operation of the C++ code is written out with `% 2^32`, so
 * that the arithmetic facts about the step are stated on plain integers.
 */
module MWC64X {

  import Iteration

  /** 2^32. */
  const Base: int := 0x1_0000_0000

  /** `std::uint32_t`. */
  newtype uint32 = i: int | 0 <= i < 0x1_0000_0000

  /** `mask`. */
  const Mask: uint32 := 0xffff_ffff

  /** The template arguments `A` and `M` of the `mwc64x` alias. */
  const MWC64XA: uint32 := 4294883355
  const MWC64XM: int := 18446383549859758079

  /** The member words `x` and `c`. */
  datatype State = State(x: uint32, c: uint32)

  // ---------------------------------------------------------------------
  // 32-bit arithmetic

  /** `a + b` on `std::uint32_t`: wraps modulo 2^32. */
  function Add(a: uint32, b: uint32): uint32
  {
    ((a as int + b as int) % Base) as uint32
  }

  /** `a * b` on `std::uint32_t`: the low 32 bits of the product. */
  function Mul(a: uint32, b: uint32): uint32
  {
    ((a as int * b as int) % Base) as uint32
  }

  lemma {:induction false} MulMono(x: int, y: int, z: int)
    requires x >= 0 && y <= z
    ensures x * y <= x * z
  {
    if x > 0 {
      MulMono(x - 1, y, z);
      assert x * y == (x - 1) * y + y;
      assert x * z == (x - 1) * z + z;
    }
  }

  lemma ProductBound(a: uint32, b: uint32)
    ensures 0 <= a as int * b as int <= (Base - 1) * (Base - 1)
  {
    MulMono(a as int, 0, b as int);
    MulMono(a as int, b as int, Base - 1);
    MulMono(Base - 1, a as int, Base - 1);
    assert a as int * (Base - 1) == (Base - 1) * a as int;
  }

  /**
   * OpenCL's `mul_hi(a, b)` (section 6.12.3 of the OpenCL 1.2
   * specification): the high 32 bits of the 64-bit product.
   */
  function MulHi(a: uint32, b: uint32): uint32
  {
    ProductBound(a, b);
    ((a as int * b as int) / Base) as uint32
  }

  /** OpenCL's `mad_hi(a, b, k)`: `mul_hi(a, b) + k`, in 32-bit arithmetic. */
  function MadHi(a: uint32, b: uint32, k: uint32): uint32
  {
    Add(MulHi(a, b), k)
  }

  /** `static_cast<std::uint32_t>(xn < c)`. */
  function Carry(xn: uint32, c: uint32): uint32
  {
    if xn < c then 1 else 0
  }

  /** The 64-bit product is its high word times 2^32 plus its low word. */
  lemma MulSplit(a: uint32, b: uint32)
    ensures MulHi(a, b) as int * Base + Mul(a, b) as int == a as int * b as int
  {
  }

  /** The high word of a product of two 32-bit words is at most 2^32 - 2, and reaches it. */
  lemma MulHiBound(a: uint32, b: uint32)
    ensures MulHi(a, b) as int <= Base - 2
    ensures MulHi(Mask, Mask) as int == Base - 2
  {
    ProductBound(a, b);
    assert (Base - 1) * (Base - 1) == (Base - 2) * Base + 1;
  }

  /** `mad_hi` with an addend of at most 1 never wraps. */
  lemma MadHiNoWrap(a: uint32, b: uint32, k: uint32)
    requires k <= 1
    ensures MadHi(a, b, k) as int == MulHi(a, b) as int + k as int
  {
    MulHiBound(a, b);
  }

  // ---------------------------------------------------------------------
  // The step

  /** `next_state`: `xn = a * x + c`, `carry = (xn < c)`, `cn = mad_hi(a, x, carry)`. */
  function Next(a: uint32, s: State): State
  {
    var xn := Add(Mul(a, s.x), s.c);
    State(xn, MadHi(a, s.x, Carry(xn, s.c)))
  }

  /** The new `x` is `a * x + c` modulo 2^32. */
  lemma NextX(a: uint32, s: State)
    ensures Next(a, s).x as int == (a as int * s.x as int + s.c as int) % Base
  {
    ModAddLow(a as int * s.x as int, s.c as int);
  }

  lemma ModAddLow(p: int, c: int)
    ensures (p % Base + c) % Base == (p + c) % Base
  {
  }

  /**
   * The carry flag is the carry out of the 32-bit addition of `c` to the low
   * word of `a * x`: it is 0 or 1, and it is 1 exactly when that addition
   * wrapped.
   */
  lemma CarryIsWrap(a: uint32, s: State)
    ensures var carry := Carry(Next(a, s).x, s.c);
      (carry == 0 || carry == 1) &&
      carry as int == (Mul(a, s.x) as int + s.c as int) / Base &&
      (carry == 1 <==> Mul(a, s.x) as int + s.c as int >= Base)
  {
  }

  /** The new `c` is the high word of `a * x` plus the carry flag, with no wrap. */
  lemma NextC(a: uint32, s: State)
    ensures Next(a, s).c as int == MulHi(a, s.x) as int + Carry(Next(a, s).x, s.c) as int
  {
    CarryIsWrap(a, s);
    MadHiNoWrap(a, s.x, Carry(Next(a, s).x, s.c));
  }

  /**
   * The new words split `a * x + c` exactly: the new `x` is its low word
   * and the new `c` its high word.
   */
  lemma StepSplit(a: uint32, s: State)
    ensures Next(a, s).c as int * Base + Next(a, s).x as int == a as int * s.x as int + s.c as int
  {
    MulSplit(a, s.x);
    CarryIsWrap(a, s);
    NextC(a, s);
  }

  /** The state read as one number, `c * 2^32 + x`. */
  function Value(s: State): int
  {
    s.c as int * Base + s.x as int
  }

  /** The modulus `a * 2^32 - 1` of the congruential generator the engine implements. */
  function Modulus(a: uint32): int
  {
    a as int * Base - 1
  }

  /** The alias's `M` is `A * 2^32 - 1`. */
  lemma AliasModulus()
    ensures MWC64XM == Modulus(MWC64XA)
  {
  }

  /** A step multiplies the value by `a`, up to a multiple of the modulus. */
  lemma StepIsLcg(a: uint32, s: State)
    ensures a as int * Value(s) == Value(Next(a, s)) + s.c as int * Modulus(a)
  {
    StepSplit(a, s);
    calc {
      a as int * Value(s);
      a as int * (s.c as int * Base) + a as int * s.x as int;
      (Next(a, s).c as int * Base + Next(a, s).x as int) + s.c as int * (a as int * Base - 1);
    }
  }

  /** The state after `n` steps. */
  function Steps(a: uint32, s: State, n: nat): State
  {
    Iteration.Iterate(t => Next(a, t), s, n)
  }

  function Power(a: int, n: nat): int
  {
    if n == 0 then 1 else a * Power(a, n - 1)
  }

  lemma PowerStep(a: int, n: nat, v: int)
    requires n >= 1
    ensures a * (Power(a, n - 1) * v) == Power(a, n) * v
  {
  }

  lemma {:induction false} MulAtLeast(d: int, m: int)
    requires d >= 1 && m >= 0
    ensures d * m >= m
  {
    if d > 1 {
      MulAtLeast(d - 1, m);
      assert d * m == (d - 1) * m + m;
    }
  }

  /** Euclidean division by a positive `m` has one quotient and one remainder. */
  lemma DivModUnique(n: int, m: int, q: int, r: int)
    requires m > 0 && 0 <= r < m
    requires n == q * m + r
    ensures n % m == r && n / m == q
  {
    var q', r' := n / m, n % m;
    assert (q - q') * m == r' - r;
    if q > q' {
      MulAtLeast(q - q', m);
    } else if q < q' {
      MulAtLeast(q' - q, m);
    }
  }

  lemma ModMultiple(v: int, k: int, m: int)
    requires m > 0
    ensures (v + k * m) % m == v % m
  {
    var q, r := v / m, v % m;
    assert v + k * m == (q + k) * m + r;
    DivModUnique(v + k * m, m, q + k, r);
  }

  lemma ModMul(a: int, v: int, w: int, m: int)
    requires m > 0 && v % m == w % m
    ensures (a * v) % m == (a * w) % m
  {
    var k := v / m - w / m;
    assert v == w + k * m;
    assert a * v == a * w + (a * k) * m;
    ModMultiple(a * w, a * k, m);
  }

  /** One step is multiplication by `a` modulo `a * 2^32 - 1`. */
  lemma StepModulo(a: uint32, s: State)
    ensures (a as int * Value(s)) % Modulus(a) == Value(Next(a, s)) % Modulus(a)
  {
    StepIsLcg(a, s);
    if a == 0 {
      assert Modulus(a) == -1;
    } else {
      ModMultiple(Value(Next(a, s)), s.c as int, Modulus(a));
    }
  }

  /**
   * After `n` steps the value is `a^n` times the starting value, modulo
   * `a * 2^32 - 1`: the engine is the congruential generator it stands for.
   */
  lemma {:induction false} StepsIsLcg(a: uint32, s: State, n: nat)
    ensures (Power(a as int, n) * Value(s)) % Modulus(a) == Value(Steps(a, s, n)) % Modulus(a)
  {
    if a == 0 {
      assert Modulus(a) == -1;
    } else if n > 0 {
      var t := Steps(a, s, n - 1);
      var v := Power(a as int, n - 1) * Value(s);
      StepsIsLcg(a, s, n - 1);
      ModMul(a as int, v, Value(t), Modulus(a));
      PowerStep(a as int, n, Value(s));
      StepModulo(a, t);
      assert Steps(a, s, n) == Next(a, t);
    }
  }

  /** A first step of the `mwc64x` engine from `x` = 1, `c` = 0: the state moves. */
  lemma FirstStepMoves()
    ensures Next(MWC64XA, State(1, 0)) == State(MWC64XA, 0)
    ensures Steps(MWC64XA, State(1, 0), 1) != State(1, 0)
  {
    assert Mul(MWC64XA, 1) == MWC64XA;
  }

  /** The engine object: the multiplier `a` and the member words `x` and `c`. */
  class Engine {
    const a: uint32
    var x: uint32
    var c: uint32

    /** The two words as a value. */
    function Contents(): State
      reads this
    {
      State(x, c)
    }

    /**
     * `multiply_with_carry_engine_32(value)`: calls `seed(value)`, whose
     * body is empty, so nothing is promised about the words.
     */
    constructor (a: uint32, value: uint32)
      ensures this.a == a
    {
      this.a := a;
    }

    /** The copy constructor. */
    constructor Copy(other: Engine)
      ensures a == other.a && Contents() == other.Contents()
    {
      a := other.a;
      x := other.x;
      c := other.c;
    }

    /** `next_state`: computes the new words in locals, then assigns `x` and `c`. */
    method NextState()
      modifies this
      ensures Contents() == Next(a, old(Contents()))
    {
      var xn := Add(Mul(a, x), c);
      var carry := Carry(xn, c);
      var cn := MadHi(a, x, carry);
      x := xn;
      c := cn;
    }

    /** `operator()` as written: its body is empty, so it changes nothing. */
    method GenerateAsWritten()
      ensures Contents() == old(Contents())
    {
    }

    /** `discard(z)` as written: `z` calls of the empty `operator()`. */
    method DiscardAsWritten(z: nat)
      ensures Contents() == old(Contents())
    {
      var k: nat := z;
      while 0 < k
        invariant Contents() == old(Contents())
      {
        GenerateAsWritten();
        k := k - 1;
      }
    }

    /** `operator()` as intended: one step, returning the new `x`. */
    method Generate() returns (r: uint32)
      modifies this
      ensures Contents() == Next(a, old(Contents()))
      ensures r == x
      ensures Min() <= r <= Max()
    {
      NextState();
      r := x;
    }

    /** `discard(z)` as intended: counts `z` down to 0, one step per pass. */
    method Discard(z: nat)
      modifies this
      ensures Contents() == Steps(a, old(Contents()), z)
      ensures z == 0 ==> Contents() == old(Contents())
    {
      var k: nat := z;
      while 0 < k
        invariant k <= z
        invariant Contents() == Steps(a, old(Contents()), z - k)
      {
        var _ := Generate();
        k := k - 1;
      }
    }

    /** `operator==`: word-wise equality of two engines with the same multiplier. */
    function Equals(other: Engine): (r: bool)
      reads this, other
      requires other.a == a
      ensures r <==> Contents() == other.Contents()
    {
      x == other.x && c == other.c
    }

    /** `operator!=`: the exact negation of `operator==`. */
    function NotEquals(other: Engine): (r: bool)
      reads this, other
      requires other.a == a
      ensures r <==> !Equals(other)
      ensures r <==> Contents() != other.Contents()
    {
      x != other.x || c != other.c
    }

    static function Min(): (r: uint32)
      ensures r as int == 0
    {
      0
    }

    /** `max()` is 2^32 - 1, which is `mask`. */
    static function Max(): (r: uint32)
      ensures r as int == Base - 1
      ensures r == Mask
    {
      0xffff_ffff
    }
  }
}

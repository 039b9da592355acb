/**
 * The 64-bit Tiny Mersenne Twister engine (`tiny_mersenne_twister_engine_64`).
 *
 * The engine's whole state is two 64-bit words. Values of `State` are the
 * abstract view used by the specification functions; the class `Engine`
 * keeps the two words in an array, as the C++ class does, and updates them
 * in place. Unsigned 64-bit arithmetic is `bv64` arithmetic: `+` and `*`
 * wrap modulo 2^64.
 *
 * Every bit-level operation is a small function of words ("word
 * function"), and the functions on `State` only combine word functions, so
 * that facts about states follow from facts about a few word functions.
 */
module TinyMT64 {

  import Iteration

  /** The template parameters `Mat1`, `Mat2` (32-bit) and `TMat` (64-bit). */
  datatype Params = Params(mat1: bv32, mat2: bv32, tmat: bv64)

  /** The parameters of the `tinymt_64` alias. */
  const TinyMT64Params: Params := Params(12, 11, 8)

  /** `mask`: every bit but the top one. */
  const Mask: bv64 := 0x7fff_ffff_ffff_ffff
  const TopBit: bv64 := 0x8000_0000_0000_0000
  const DefaultSeed: bv64 := 5489
  /** `min_loop`: the seeding loop runs for i = 1 .. MinLoop - 1. */
  const MinLoop: nat := 8

  /** The two words `state_[0]` and `state_[1]`. */
  datatype State = State(w0: bv64, w1: bv64)

  // ---------------------------------------------------------------------
  // Word functions and their bit-level facts

  /** `a ^ b`. */
  function Xor(a: bv64, b: bv64): bv64
  {
    a ^ b
  }

  /** The low bit of `x` is set. */
  predicate Odd(x: bv64)
  {
    x & 1 == 1
  }

  /** A 32-bit constant converted to a 64-bit word. */
  function Low(m: bv32): bv64
  {
    m as bv64
  }

  /** A 32-bit constant converted to a 64-bit word and shifted into the high half. */
  function High(m: bv32): bv64
  {
    (m as bv64) << 32
  }

  /** `w & mask`: the word without its top bit. */
  function Masked(w: bv64): bv64
  {
    w & Mask
  }

  /**
   * `-(x & 1) & k`: the two's-complement negation of the low bit of `x` is
   * all ones when `x` is odd and zero when it is even, so this is `k` for
   * odd `x` and 0 for even `x`.
   */
  function OddMask(x: bv64, k: bv64): bv64
  {
    (0 - (x & 1)) & k
  }

  /** `-(x & 1)` is all ones when `x` is odd and all zeros when `x` is even. */
  lemma NegatedLowBit(x: bv64)
    ensures x & 1 == 1 <==> 0 - (x & 1) == 0xffff_ffff_ffff_ffff
    ensures x & 1 != 1 <==> 0 - (x & 1) == 0
  {
  }

  /** The masked constant is `k` exactly when `x` is odd ... */
  lemma OddMaskOdd(x: bv64, k: bv64)
    ensures Odd(x) ==> OddMask(x, k) == k
  {
  }

  /** ... and 0 when `x` is even. */
  lemma OddMaskEven(x: bv64, k: bv64)
    ensures !Odd(x) ==> OddMask(x, k) == 0
  {
  }

  /** The mask depends on the parity of `x` only. */
  lemma OddMaskParity(x: bv64, y: bv64, k: bv64)
    ensures (Odd(x) <==> Odd(y)) ==> OddMask(x, k) == OddMask(y, k)
  {
    OddMaskOdd(x, k);
    OddMaskOdd(y, k);
    OddMaskEven(x, k);
    OddMaskEven(y, k);
  }

  /** XOR-ing the same word in twice undoes it. */
  lemma XorTwice(w: bv64, t: bv64)
    ensures Xor(Xor(w, t), t) == w
  {
    assert Xor(w, t) == w ^ t;
  }

  /** Two words that had the same word XOR-ed in are equal only if they were equal before. */
  lemma XorCancel(a: bv64, b: bv64, t: bv64)
    ensures Xor(a, t) == Xor(b, t) ==> a == b
  {
    XorTwice(a, t);
    XorTwice(b, t);
  }

  lemma XorZero(w: bv64)
    ensures Xor(w, 0) == w
  {
  }

  /** The high-half constant is even. */
  lemma HighEven(m: bv32)
    ensures !Odd(High(m))
  {
  }

  /** XOR-ing in an even word keeps the parity. */
  lemma XorEvenParity(x: bv64, k: bv64)
    ensures !Odd(k) ==> (Odd(Xor(x, k)) <==> Odd(x))
  {
  }

  /** Flipping the top bit changes the word but not its masked value. */
  lemma TopBitFlip(w: bv64)
    ensures Masked(Xor(w, TopBit)) == Masked(w)
    ensures Xor(w, TopBit) != w
  {
  }

  // ---------------------------------------------------------------------
  // Seeding

  /** The initial word 0: `value ^ (Mat1 << 32)`. */
  function SeedWord0(mat1: bv32, value: bv64): bv64
  {
    Xor(value, High(mat1))
  }

  /** The initial word 1: `Mat2 ^ TMat`. */
  function SeedWord1(mat2: bv32, tmat: bv64): bv64
  {
    Xor(Low(mat2), tmat)
  }

  /** The seed can be read back from the initial word 0. */
  lemma SeedWord0Recover(mat1: bv32, value: bv64)
    ensures Xor(SeedWord0(mat1, value), High(mat1)) == value
  {
    XorTwice(value, High(mat1));
  }

  /** The 64-bit wrapping term pass `i` of the seeding loop computes from the other word. */
  function SeedTerm(prev: bv64, i: nat): bv64
    requires i < MinLoop
  {
    (i as bv64) + 6364136223846793005 * (prev ^ (prev >> 62))
  }

  /** The two words before the mixing loop. */
  function SeedInit(p: Params, value: bv64): State
  {
    State(SeedWord0(p.mat1, value), SeedWord1(p.mat2, p.tmat))
  }

  /** An odd pass: word 1 absorbs the term computed from word 0. */
  function SeedPassOdd(s: State, i: nat): State
    requires 1 <= i < MinLoop
  {
    State(s.w0, Xor(s.w1, SeedTerm(s.w0, i)))
  }

  /** An even pass: word 0 absorbs the term computed from word 1. */
  function SeedPassEven(s: State, i: nat): State
    requires 1 <= i < MinLoop
  {
    State(Xor(s.w0, SeedTerm(s.w1, i)), s.w1)
  }

  /** Pass `i` of the seeding loop: word `i & 1` absorbs the term computed from word `(i - 1) & 1`. */
  function SeedPass(s: State, i: nat): State
    requires 1 <= i < MinLoop
  {
    if i % 2 == 1 then SeedPassOdd(s, i) else SeedPassEven(s, i)
  }

  /** Passes 1 .. n of the seeding loop, in order. */
  function SeedPasses(s: State, n: nat): State
    requires n < MinLoop
  {
    if n == 0 then s else SeedPass(SeedPasses(s, n - 1), n)
  }

  /** The state built by the seeding constructor. */
  function Seeded(p: Params, value: bv64): State
  {
    SeedPasses(SeedInit(p, value), MinLoop - 1)
  }

  /** The seeding loop runs exactly seven passes, i = 1 .. 7, in this order. */
  lemma SeededPasses(p: Params, value: bv64)
    ensures Seeded(p, value) ==
      SeedPass(SeedPass(SeedPass(SeedPass(SeedPass(SeedPass(SeedPass(
        SeedInit(p, value), 1), 2), 3), 4), 5), 6), 7)
  {
    var s := SeedInit(p, value);
    assert SeedPasses(s, 1) == SeedPass(s, 1);
    assert SeedPasses(s, 2) == SeedPass(SeedPasses(s, 1), 2);
    assert SeedPasses(s, 3) == SeedPass(SeedPasses(s, 2), 3);
    assert SeedPasses(s, 4) == SeedPass(SeedPasses(s, 3), 4);
    assert SeedPasses(s, 5) == SeedPass(SeedPasses(s, 4), 5);
    assert SeedPasses(s, 6) == SeedPass(SeedPasses(s, 5), 6);
  }

  lemma SeedPassOddInjective(s: State, t: State, i: nat)
    requires 1 <= i < MinLoop
    ensures SeedPassOdd(s, i) == SeedPassOdd(t, i) ==> s == t
  {
    XorCancel(s.w1, t.w1, SeedTerm(s.w0, i));
  }

  lemma SeedPassEvenInjective(s: State, t: State, i: nat)
    requires 1 <= i < MinLoop
    ensures SeedPassEven(s, i) == SeedPassEven(t, i) ==> s == t
  {
    XorCancel(s.w0, t.w0, SeedTerm(s.w1, i));
  }

  /**
   * A pass XORs into one word a function of the other word, which it leaves
   * alone, so two different states stay different.
   */
  lemma SeedPassInjective(s: State, t: State, i: nat)
    requires 1 <= i < MinLoop
    ensures SeedPass(s, i) == SeedPass(t, i) ==> s == t
  {
    if i % 2 == 1 {
      SeedPassOddInjective(s, t, i);
    } else {
      SeedPassEvenInjective(s, t, i);
    }
  }

  lemma {:induction false} SeedPassesInjective(s: State, t: State, n: nat)
    requires n < MinLoop
    ensures SeedPasses(s, n) == SeedPasses(t, n) ==> s == t
  {
    if n > 0 {
      SeedPassInjective(SeedPasses(s, n - 1), SeedPasses(t, n - 1), n);
      SeedPassesInjective(s, t, n - 1);
    }
  }

  /** Different seeds give different states, and equal seeds equal states. */
  lemma SeedInjective(p: Params, v: bv64, v': bv64)
    ensures Seeded(p, v) == Seeded(p, v') <==> v == v'
  {
    SeedPassesInjective(SeedInit(p, v), SeedInit(p, v'), MinLoop - 1);
    SeedWord0Recover(p.mat1, v);
    SeedWord0Recover(p.mat1, v');
  }

  // ---------------------------------------------------------------------
  // State transition

  // The four steps of the shift/XOR chain of `next_state` (`sh0` = 12,
  // `sh1` = 11), and the inverses of the two that are not their own inverse.

  function XorShl12(y: bv64): bv64 { y ^ (y << 12) }
  function XorShr32(y: bv64): bv64 { y ^ (y >> 32) }
  function XorShl32(y: bv64): bv64 { y ^ (y << 32) }
  function XorShl11(y: bv64): bv64 { y ^ (y << 11) }
  function UnXorShl12(x: bv64): bv64 { x ^ (x << 12) ^ (x << 24) ^ (x << 36) ^ (x << 48) ^ (x << 60) }
  function UnXorShl11(x: bv64): bv64 { x ^ (x << 11) ^ (x << 22) ^ (x << 33) ^ (x << 44) ^ (x << 55) }

  lemma UndoShl12(y: bv64)
    ensures UnXorShl12(XorShl12(y)) == y
  {
    assert XorShl12(y) == y ^ (y << 12);
  }

  lemma UndoShr32(y: bv64)
    ensures XorShr32(XorShr32(y)) == y
  {
    assert XorShr32(y) == y ^ (y >> 32);
  }

  lemma UndoShl32(y: bv64)
    ensures XorShl32(XorShl32(y)) == y
  {
    assert XorShl32(y) == y ^ (y << 32);
  }

  lemma UndoShl11(y: bv64)
    ensures UnXorShl11(XorShl11(y)) == y
  {
    assert XorShl11(y) == y ^ (y << 11);
  }

  /** The shift/XOR chain of `next_state`. */
  function Shuffle(y: bv64): bv64
  {
    XorShl11(XorShl32(XorShr32(XorShl12(y))))
  }

  /** The chain undone step by step, in reverse order. */
  function Unshuffle(x: bv64): bv64
  {
    UnXorShl12(XorShr32(XorShl32(UnXorShl11(x))))
  }

  /** The mixing chain loses no information. */
  lemma UnshuffleShuffle(y: bv64)
    ensures Unshuffle(Shuffle(y)) == y
  {
    UndoShl12(y);
    UndoShr32(XorShl12(y));
    UndoShl32(XorShr32(XorShl12(y)));
    UndoShl11(XorShl32(XorShr32(XorShl12(y))));
  }

  /** The input of the chain: word 0 without its top bit, XOR word 1. */
  function MaskedXor(w0: bv64, w1: bv64): bv64
  {
    Xor(Masked(w0), w1)
  }

  /** `x` of `next_state`: the chain applied to the masked XOR of the two words. */
  function Mixed(w0: bv64, w1: bv64): bv64
  {
    Shuffle(MaskedXor(w0, w1))
  }

  /** The new word 0: old word 1, XOR `Mat1` when `x` is odd. */
  function Rotated0(mat1: bv32, w1: bv64, x: bv64): bv64
  {
    Xor(w1, OddMask(x, Low(mat1)))
  }

  /** The new word 1: `x`, XOR `Mat2 << 32` when `x` is odd. */
  function Rotated1(mat2: bv32, x: bv64): bv64
  {
    Xor(x, OddMask(x, High(mat2)))
  }

  /** One step of the engine on the two words. */
  function Next(p: Params, s: State): State
  {
    State(Rotated0(p.mat1, s.w1, Mixed(s.w0, s.w1)), Rotated1(p.mat2, Mixed(s.w0, s.w1)))
  }

  lemma Rotated0Odd(mat1: bv32, w1: bv64, x: bv64)
    ensures Odd(x) ==> Rotated0(mat1, w1, x) == Xor(w1, Low(mat1))
  {
    OddMaskOdd(x, Low(mat1));
  }

  lemma Rotated0Even(mat1: bv32, w1: bv64, x: bv64)
    ensures !Odd(x) ==> Rotated0(mat1, w1, x) == w1
  {
    OddMaskEven(x, Low(mat1));
    XorZero(w1);
  }

  lemma Rotated1Odd(mat2: bv32, x: bv64)
    ensures Odd(x) ==> Rotated1(mat2, x) == Xor(x, High(mat2))
  {
    OddMaskOdd(x, High(mat2));
  }

  lemma Rotated1Even(mat2: bv32, x: bv64)
    ensures !Odd(x) ==> Rotated1(mat2, x) == x
  {
    OddMaskEven(x, High(mat2));
    XorZero(x);
  }

  /**
   * The step read with branches, for `x` the output of the mixing chain:
   * the new word 0 is the old word 1 and the new word 1 is `x`, each XOR
   * its matrix constant exactly when `x` is odd.
   */
  lemma NextOdd(p: Params, s: State, x: bv64)
    ensures x == Mixed(s.w0, s.w1) && Odd(x) ==>
      Next(p, s) == State(Xor(s.w1, Low(p.mat1)), Xor(x, High(p.mat2)))
  {
    Rotated0Odd(p.mat1, s.w1, x);
    Rotated1Odd(p.mat2, x);
  }

  lemma NextEven(p: Params, s: State, x: bv64)
    ensures x == Mixed(s.w0, s.w1) && !Odd(x) ==> Next(p, s) == State(s.w1, x)
  {
    Rotated0Even(p.mat1, s.w1, x);
    Rotated1Even(p.mat2, x);
  }

  // The step undone, up to the top bit of word 0 that it drops.

  /** Recovers `x` from the new word 1: `Mat2 << 32` is even, so the new word 1 has the parity of `x`. */
  function Unrotate1(mat2: bv32, t1: bv64): bv64
  {
    Xor(t1, OddMask(t1, High(mat2)))
  }

  /** Recovers the old word 1 from the new words. */
  function Unrotate0(mat1: bv32, t0: bv64, t1: bv64): bv64
  {
    Xor(t0, OddMask(t1, Low(mat1)))
  }

  /** Recovers the old word 0, without its top bit, from `x` and the old word 1. */
  function Unmix(x: bv64, w1: bv64): bv64
  {
    Xor(Unshuffle(x), w1)
  }

  /** The state before a step, with the lost top bit of word 0 cleared. */
  function Prev(p: Params, t: State): State
  {
    State(Unmix(Unrotate1(p.mat2, t.w1), Unrotate0(p.mat1, t.w0, t.w1)), Unrotate0(p.mat1, t.w0, t.w1))
  }

  /** The new word 1 has the parity of `x`. */
  lemma Rotated1Parity(mat2: bv32, x: bv64)
    ensures Odd(Rotated1(mat2, x)) <==> Odd(x)
  {
    Rotated1Odd(mat2, x);
    Rotated1Even(mat2, x);
    HighEven(mat2);
    XorEvenParity(x, High(mat2));
  }

  lemma UnrotateRotate1(mat2: bv32, x: bv64)
    ensures Unrotate1(mat2, Rotated1(mat2, x)) == x
  {
    Rotated1Parity(mat2, x);
    OddMaskParity(Rotated1(mat2, x), x, High(mat2));
    XorTwice(x, OddMask(x, High(mat2)));
  }

  lemma UnrotateRotate0(mat1: bv32, mat2: bv32, w1: bv64, x: bv64)
    ensures Unrotate0(mat1, Rotated0(mat1, w1, x), Rotated1(mat2, x)) == w1
  {
    Rotated1Parity(mat2, x);
    OddMaskParity(Rotated1(mat2, x), x, Low(mat1));
    XorTwice(w1, OddMask(x, Low(mat1)));
  }

  lemma UnmixMixed(w0: bv64, w1: bv64)
    ensures Unmix(Mixed(w0, w1), w1) == Masked(w0)
  {
    UnshuffleShuffle(MaskedXor(w0, w1));
    XorTwice(Masked(w0), w1);
  }

  /** A step can be undone up to the top bit of word 0. */
  lemma PrevNext(p: Params, s: State)
    ensures Prev(p, Next(p, s)) == State(Masked(s.w0), s.w1)
  {
    UnrotateRotate1(p.mat2, Mixed(s.w0, s.w1));
    UnrotateRotate0(p.mat1, p.mat2, s.w1, Mixed(s.w0, s.w1));
    UnmixMixed(s.w0, s.w1);
  }

  /**
   * A step ignores bit 63 of word 0 and nothing else: two states step to
   * the same state exactly when they agree everywhere but there.
   */
  lemma NextIgnoresTopBit(p: Params, s: State, t: State)
    ensures Next(p, s) == Next(p, t) <==> (Masked(s.w0) == Masked(t.w0) && s.w1 == t.w1)
  {
    NextDeterminesMasked(p, s, t);
    MaskedDeterminesNext(p, s, t);
  }

  lemma NextDeterminesMasked(p: Params, s: State, t: State)
    ensures Next(p, s) == Next(p, t) ==> Masked(s.w0) == Masked(t.w0) && s.w1 == t.w1
  {
    PrevNext(p, s);
    PrevNext(p, t);
  }

  lemma MaskedDeterminesNext(p: Params, s: State, t: State)
    ensures Masked(s.w0) == Masked(t.w0) && s.w1 == t.w1 ==> Next(p, s) == Next(p, t)
  {
  }

  /** Flipping the top bit of word 0 gives a different state with the same successor. */
  lemma TopBitInvisible(p: Params, s: State)
    ensures State(Xor(s.w0, TopBit), s.w1) != s
    ensures Next(p, State(Xor(s.w0, TopBit), s.w1)) == Next(p, s)
  {
    TopBitFlip(s.w0);
    NextIgnoresTopBit(p, State(Xor(s.w0, TopBit), s.w1), s);
  }

  /** The state after `n` steps. */
  function Steps(p: Params, s: State, n: nat): State
  {
    Iteration.Iterate(t => Next(p, t), s, n)
  }

  /** No steps leave the state as it is; one more step is one more `Next`. */
  lemma StepsUnfold(p: Params, s: State, n: nat)
    ensures Steps(p, s, 0) == s
    ensures Steps(p, s, n + 1) == Next(p, Steps(p, s, n))
  {
  }

  /** After at least one step, bit 63 of the starting word 0 has left no trace. */
  lemma StepsIgnoreTopBit(p: Params, s: State, t: State, n: nat)
    requires n >= 1
    requires Masked(s.w0) == Masked(t.w0) && s.w1 == t.w1
    ensures Steps(p, s, n) == Steps(p, t, n)
  {
    NextIgnoresTopBit(p, s, t);
    Iteration.IterateFirst(u => Next(p, u), s, n);
    Iteration.IterateFirst(u => Next(p, u), t, n);
  }

  // ---------------------------------------------------------------------
  // Output

  /** `(w0 + w1) ^ (w0 >> sh8)`, with `sh8` = 8 and a wrapping sum. */
  function TemperSum(w0: bv64, w1: bv64): bv64
  {
    (w0 + w1) ^ (w0 >> 8)
  }

  /** `t`, XOR `TMat` when `t` is odd. */
  function TemperSelect(tmat: bv64, t: bv64): bv64
  {
    Xor(t, OddMask(t, tmat))
  }

  lemma TemperSelectOdd(tmat: bv64, t: bv64)
    ensures Odd(t) ==> TemperSelect(tmat, t) == Xor(t, tmat)
  {
    OddMaskOdd(t, tmat);
  }

  lemma TemperSelectEven(tmat: bv64, t: bv64)
    ensures !Odd(t) ==> TemperSelect(tmat, t) == t
  {
    OddMaskEven(t, tmat);
    XorZero(t);
  }

  /** `temper` of a state. */
  function Tempered(p: Params, s: State): bv64
  {
    TemperSelect(p.tmat, TemperSum(s.w0, s.w1))
  }

  /**
   * `temper` read with a branch, for `t` the sum `(w0 + w1) ^ (w0 >> 8)`:
   * the output is `t ^ TMat` when `t` is odd and `t` when it is even.
   */
  lemma TemperedOdd(p: Params, s: State, t: bv64)
    ensures t == TemperSum(s.w0, s.w1) && Odd(t) ==> Tempered(p, s) == Xor(t, p.tmat)
  {
    TemperSelectOdd(p.tmat, t);
  }

  lemma TemperedEven(p: Params, s: State, t: bv64)
    ensures t == TemperSum(s.w0, s.w1) && !Odd(t) ==> Tempered(p, s) == t
  {
    TemperSelectEven(p.tmat, t);
  }

  /** The value `operator()` returns from state `s`: step, then temper. */
  function Output(p: Params, s: State): bv64
  {
    Tempered(p, Next(p, s))
  }

  /**
   * The `tinymt_64` engine seeded with `default_seed`: the two words before
   * the loop and after each pass, the state after one step, and the first
   * output.
   */
  lemma DefaultSeedVector()
    ensures SeedInit(TinyMT64Params, DefaultSeed) == State(0x0000_000c_0000_1571, 0x0000_0000_0000_0003)
    ensures SeedPasses(SeedInit(TinyMT64Params, DefaultSeed), 1) == State(0x0000_000c_0000_1571, 0x4c36_7563_116b_d3dd)
    ensures SeedPasses(SeedInit(TinyMT64Params, DefaultSeed), 2) == State(0xa421_dc6e_2d1a_74df, 0x4c36_7563_116b_d3dd)
    ensures SeedPasses(SeedInit(TinyMT64Params, DefaultSeed), 3) == State(0xa421_dc6e_2d1a_74df, 0xf2fe_c4cd_bf2a_fe01)
    ensures SeedPasses(SeedInit(TinyMT64Params, DefaultSeed), 4) == State(0xfa17_e3a7_70a1_d081, 0xf2fe_c4cd_bf2a_fe01)
    ensures SeedPasses(SeedInit(TinyMT64Params, DefaultSeed), 5) == State(0xfa17_e3a7_70a1_d081, 0x44a9_f8f3_b9a6_dade)
    ensures SeedPasses(SeedInit(TinyMT64Params, DefaultSeed), 6) == State(0xc2cd_ab9b_7015_cab8, 0x44a9_f8f3_b9a6_dade)
    ensures Seeded(TinyMT64Params, DefaultSeed) == State(0xc2cd_ab9b_7015_cab8, 0x77e8_2258_bf98_bd38)
    ensures Next(TinyMT64Params, State(0xc2cd_ab9b_7015_cab8, 0x77e8_2258_bf98_bd38)) ==
      State(0x77e8_2258_bf98_bd34, 0xb349_7421_1359_1abb)
    ensures Tempered(TinyMT64Params, State(0x77e8_2258_bf98_bd34, 0xb349_7421_1359_1abb)) == 0x2b46_7e5b_8a4e_4f52
  {
    SeededPasses(TinyMT64Params, DefaultSeed);
    assert SeedPass(State(0x0000_000c_0000_1571, 0x0000_0000_0000_0003), 1) == State(0x0000_000c_0000_1571, 0x4c36_7563_116b_d3dd);
    assert SeedPass(State(0x0000_000c_0000_1571, 0x4c36_7563_116b_d3dd), 2) == State(0xa421_dc6e_2d1a_74df, 0x4c36_7563_116b_d3dd);
    assert SeedPass(State(0xa421_dc6e_2d1a_74df, 0x4c36_7563_116b_d3dd), 3) == State(0xa421_dc6e_2d1a_74df, 0xf2fe_c4cd_bf2a_fe01);
    assert SeedPass(State(0xa421_dc6e_2d1a_74df, 0xf2fe_c4cd_bf2a_fe01), 4) == State(0xfa17_e3a7_70a1_d081, 0xf2fe_c4cd_bf2a_fe01);
    assert SeedPass(State(0xfa17_e3a7_70a1_d081, 0xf2fe_c4cd_bf2a_fe01), 5) == State(0xfa17_e3a7_70a1_d081, 0x44a9_f8f3_b9a6_dade);
    assert SeedPass(State(0xfa17_e3a7_70a1_d081, 0x44a9_f8f3_b9a6_dade), 6) == State(0xc2cd_ab9b_7015_cab8, 0x44a9_f8f3_b9a6_dade);
    assert SeedPass(State(0xc2cd_ab9b_7015_cab8, 0x44a9_f8f3_b9a6_dade), 7) == State(0xc2cd_ab9b_7015_cab8, 0x77e8_2258_bf98_bd38);
  }

  /** The engine object: the parameters and the member array `state_`. */
  class Engine {
    const params: Params
    const state: array<bv64>

    ghost predicate Valid()
      reads this
    {
      state.Length == 2
    }

    /** The two words as a value. */
    function Contents(): State
      reads this, state
      requires Valid()
    {
      State(state[0], state[1])
    }

    /** Seeding constructor `tiny_mersenne_twister_engine_64(value)`. */
    constructor (p: Params, value: bv64)
      ensures Valid() && fresh(state) && params == p
      ensures Contents() == Seeded(p, value)
    {
      params := p;
      state := new bv64[2];
      new;
      Init(value);
    }

    /** Default constructor: the seeding constructor applied to `default_seed`. */
    constructor Default(p: Params)
      ensures Valid() && fresh(state) && params == p
      ensures Contents() == Seeded(p, DefaultSeed)
    {
      params := p;
      state := new bv64[2];
      new;
      Init(DefaultSeed);
    }

    /** The copy constructor: a new array holding the same two words. */
    constructor Copy(other: Engine)
      requires other.Valid()
      ensures Valid() && fresh(state) && params == other.params
      ensures Contents() == other.Contents()
    {
      params := other.params;
      state := new bv64[2];
      new;
      state[0] := other.state[0];
      state[1] := other.state[1];
    }

    /** The body of the seeding constructor; the prior words play no part. */
    method Init(value: bv64)
      requires Valid()
      modifies state
      ensures Contents() == Seeded(params, value)
    {
      state[0] := SeedWord0(params.mat1, value);
      state[1] := SeedWord1(params.mat2, params.tmat);
      var i := 1;
      while i < MinLoop
        invariant 1 <= i <= MinLoop
        invariant Contents() == SeedPasses(SeedInit(params, value), i - 1)
      {
        SeedPassInPlace(i);
        i := i + 1;
      }
    }

    /** One pass of the seeding loop: `state_[i & 1]` absorbs the term computed from `state_[(i - 1) & 1]`. */
    method SeedPassInPlace(i: nat)
      requires Valid() && 1 <= i < MinLoop
      modifies state
      ensures Contents() == SeedPass(old(Contents()), i)
    {
      if i % 2 == 1 {
        state[1] := Xor(state[1], SeedTerm(state[0], i));
      } else {
        state[0] := Xor(state[0], SeedTerm(state[1], i));
      }
    }

    static function Min(): (r: bv64)
      ensures r as int == 0
    {
      0
    }

    static function Max(): (r: bv64)
      ensures r as int == 0x1_0000_0000_0000_0000 - 1
    {
      0xffff_ffff_ffff_ffff
    }

    /** `next_state`: the branchless step, updating the two words in place. */
    method NextState()
      requires Valid()
      modifies state
      ensures Contents() == Next(params, old(Contents()))
    {
      state[0] := Masked(state[0]);
      var x := Xor(state[0], state[1]);
      x := XorShl12(x);
      x := XorShr32(x);
      x := XorShl32(x);
      x := XorShl11(x);
      state[0] := state[1];
      state[1] := x;
      state[0] := Xor(state[0], OddMask(x, Low(params.mat1)));
      state[1] := Xor(state[1], OddMask(x, High(params.mat2)));
    }

    /** `temper`: the branchless output transform; it only reads the state. */
    function Temper(): (r: bv64)
      reads this, state
      requires Valid()
      ensures r == Tempered(params, Contents())
    {
      TemperSelect(params.tmat, TemperSum(state[0], state[1]))
    }

    /** `operator()`: one step, then the tempered value of the new state. */
    method Generate() returns (r: bv64)
      requires Valid()
      modifies state
      ensures Contents() == Next(params, old(Contents()))
      ensures r == Output(params, old(Contents()))
      ensures Min() <= r <= Max()
    {
      NextState();
      r := Temper();
    }

    /** `discard(z)`: counts `z` down to 0, drawing and dropping one value per pass. */
    method Discard(z: nat)
      requires Valid()
      modifies state
      ensures Contents() == Steps(params, old(Contents()), z)
      ensures z == 0 ==> Contents() == old(Contents())
    {
      var k: nat := z;
      while 0 < k
        invariant k <= z
        invariant Contents() == Steps(params, old(Contents()), z - k)
      {
        StepsUnfold(params, old(Contents()), z - k);
        var _ := Generate();
        k := k - 1;
      }
      StepsUnfold(params, old(Contents()), 0);
    }

    /** `operator==`: word-wise equality of two engines of the same parameters. */
    function Equals(other: Engine): (r: bool)
      reads this, state, other, other.state
      requires Valid() && other.Valid() && other.params == params
      ensures r <==> Contents() == other.Contents()
    {
      state[0] == other.state[0] && state[1] == other.state[1]
    }

    /** `operator!=`: the exact negation of `operator==`. */
    function NotEquals(other: Engine): (r: bool)
      reads this, state, other, other.state
      requires Valid() && other.Valid() && other.params == params
      ensures r <==> !Equals(other)
      ensures r <==> Contents() != other.Contents()
    {
      state[0] != other.state[0] || state[1] != other.state[1]
    }
  }
}

# TinyMT64 and MWC64X engines in Dafny

This project models the two pseudorandom engines of the `prng` headers and
proves what their code promises:

- `tiny_mersenne_twister_engine_64` (module `TinyMT64`, file `tinymt64.dfy`):
  a 64-bit Tiny Mersenne Twister whose state is two 64-bit words. The words
  are kept in a two-element array that the class `TinyMT64.Engine` updates
  in place. This covers the seeding constructor, the default and copy
  constructors, `next_state`, `temper`, `operator()`, `discard`, `==`,
  `!=`, `min` and `max`. Unsigned 64-bit arithmetic is `bv64` arithmetic.
  The template parameters `Mat1`, `Mat2` and `TMat` are a `Params` value,
  and the `tinymt_64` alias is `TinyMT64Params`.
- `multiply_with_carry_engine_32` (module `MWC64X`, file `mwc64x.dfy`): a
  multiply-with-carry engine whose state is the 32-bit words `x` and `c`.
  They are fields of the class `MWC64X.Engine`. This covers `next_state`,
  `discard`, `==`, `!=`, `min` and `max`. A `std::uint32_t` is an integer
  in 0 .. 2^32 - 1, and every wrap-around is written out as `% 2^32`.
  OpenCL's `mad_hi(a, b, k)` follows section 6.12.3 of the OpenCL 1.2
  specification: the high 32 bits of the 64-bit product `a * b`, plus `k`.
- `Iteration` (file `iteration.dfy`) holds the `n`-fold application of a
  step function. Both `discard`s are specified with it.

Each engine has a specification on values: a `State` datatype, a step
function `Next` and `Steps` for `n` steps. Each class method's `ensures`
ties the new state to those functions. The lemmas then prove the engine's
properties about the functions:

- the branch reading of the branchless masks;
- that a TinyMT64 step can be undone up to the top bit of word 0, and
  ignores exactly that bit;
- that TinyMT64 seeding is injective in the seed;
- that an MWC step splits `a * x + c` exactly into a low word and a high
  word;
- that the MWC engine is a congruential generator modulo `a * 2^32 - 1`.

Points where the model reads the code in a particular way:

- **Seeding passes.** The TinyMT64 seeding loop runs `i = 1 .. min_loop - 1`
  with `min_loop` = 8, which is seven passes; see `TinyMT64.SeededPasses`.
- **TinyMT64 `discard`.** Line 52 of `include/PRNG/TinyMT.hpp` is written
  `this->operator();`. This names the member function `operator()` without
  calling it, which C++ rejects once `discard` is instantiated.
  `TinyMT64.Engine.Discard` models the evident intent: one call of
  `operator()` per pass, as in `MWC64X.hpp` (see Findings).
- **Alias parameters.** The parameters of `tinymt_64` are `<12, 11, 8>`.
  These are the same numbers as the shift distances `sh0`, `sh1` and
  `sh8`. They are kept as written.
- **MWC `operator()`.** Its body is empty (see Findings). So the MWC
  `discard` is modelled twice: once as written, once as intended.
  The source shows that `operator()` should advance the state, but it
  gives no return value. The model's `operator()` returns the new `x`,
  the classic multiply-with-carry output; this is the model's own choice
  (the widely used MWC64X reference returns `x ^ c` of the state before
  the step).

## Model

| member | source | states |
|---|---|---|
| TinyMT64.NegatedLowBit | include/PRNG/TinyMT.hpp:96-97 | `-(x & 1)` is all ones exactly when `x` is odd and zero exactly when it is even |
| TinyMT64.OddMaskOdd | include/PRNG/TinyMT.hpp:96-97 | for odd `x`, the masked constant `-(x & 1) & k` is `k` |
| TinyMT64.OddMaskEven | include/PRNG/TinyMT.hpp:96-97 | for even `x`, the masked constant is 0 |
| TinyMT64.SeedWord0Recover | include/PRNG/TinyMT.hpp:27 | the seed is recovered from the initial word 0 by XOR-ing `Mat1 << 32` back out |
| TinyMT64.SeededPasses | include/PRNG/TinyMT.hpp:29-34 | the seeded state is exactly seven passes, i = 1 .. 7 in order, over the initial words `value ^ (Mat1 << 32)` and `Mat2 ^ TMat` |
| TinyMT64.SeedPassInjective | include/PRNG/TinyMT.hpp:31-33 | one pass maps different states to different states |
| TinyMT64.SeedPassesInjective | include/PRNG/TinyMT.hpp:29-34 | any number of passes maps different states to different states |
| TinyMT64.SeedInjective | include/PRNG/TinyMT.hpp:25-35 | two seeds give the same state if and only if they are equal |
| TinyMT64.DefaultSeedVector | include/PRNG/TinyMT.hpp:23-39 | for `tinymt_64` and seed 5489: the two words before the loop and after each of the seven passes, the state after one step, and the first output |
| TinyMT64.Engine.constructor | include/PRNG/TinyMT.hpp:25-35 | the new engine holds a fresh two-word array whose contents are `Seeded(p, value)`, whatever the array held before |
| TinyMT64.Engine.Default | include/PRNG/TinyMT.hpp:39 | the default constructor gives the same state as seeding with `default_seed` = 5489 |
| TinyMT64.Engine.Copy | include/PRNG/TinyMT.hpp:40 | a copy has its own array holding the same two words |
| TinyMT64.Engine.Init | include/PRNG/TinyMT.hpp:27-34 | the seeding body sets the words to `Seeded(params, value)`, using only the value and the constants |
| TinyMT64.Engine.SeedPassInPlace | include/PRNG/TinyMT.hpp:31-33 | pass `i` changes only word `i & 1`, XOR-ing in `i + 6364136223846793005 * (s ^ (s >> 62))` (mod 2^64) for `s` the other word |
| TinyMT64.UnshuffleShuffle | include/PRNG/TinyMT.hpp:87-91 | the shift/XOR chain of `next_state` can be inverted |
| TinyMT64.NextOdd | include/PRNG/TinyMT.hpp:83-98 | when `x` (the chain applied to `(s0 & mask) ^ s1`) is odd, the new words are `s1 ^ Mat1` and `x ^ (Mat2 << 32)` |
| TinyMT64.NextEven | include/PRNG/TinyMT.hpp:83-98 | when `x` is even, the new words are `s1` and `x` |
| TinyMT64.PrevNext | include/PRNG/TinyMT.hpp:83-98 | a step can be undone: `Prev` recovers the old words, with the top bit of word 0 cleared |
| TinyMT64.NextIgnoresTopBit | include/PRNG/TinyMT.hpp:85 | two states step to the same state if and only if they agree in word 1 and in bits 0-62 of word 0 |
| TinyMT64.TopBitInvisible | include/PRNG/TinyMT.hpp:85 | flipping bit 63 of word 0 gives a different state with the same successor |
| TinyMT64.StepsIgnoreTopBit | include/PRNG/TinyMT.hpp:52 | after one or more steps, bit 63 of the starting word 0 makes no difference |
| TinyMT64.Engine.NextState | include/PRNG/TinyMT.hpp:83-98 | the in-place branchless step leaves the array holding `Next(params, old words)` |
| TinyMT64.TemperedOdd | include/PRNG/TinyMT.hpp:99-107 | when `t = (s0 + s1 mod 2^64) ^ (s0 >> 8)` is odd, the tempered value is `t ^ TMat` |
| TinyMT64.TemperedEven | include/PRNG/TinyMT.hpp:99-107 | when `t` is even, the tempered value is `t` |
| TinyMT64.Engine.Temper | include/PRNG/TinyMT.hpp:99-107 | `temper` only reads the words, and returns their tempered value |
| TinyMT64.Engine.Generate | include/PRNG/TinyMT.hpp:45-50 | `operator()` steps once and returns the tempered value of the new state, which lies in [`min()`, `max()`] |
| TinyMT64.StepsUnfold | include/PRNG/TinyMT.hpp:52 | zero steps change nothing, and `n + 1` steps are one step after `n` steps |
| TinyMT64.Engine.Discard | include/PRNG/TinyMT.hpp:52 | `discard(z)` leaves the words equal to `z` steps of the old words, and `discard(0)` changes nothing |
| TinyMT64.Engine.Equals | include/PRNG/TinyMT.hpp:54-59 | `==` holds if and only if both words are equal |
| TinyMT64.Engine.NotEquals | include/PRNG/TinyMT.hpp:61-66 | `!=` is the exact negation of `==` |
| TinyMT64.Engine.Min | include/PRNG/TinyMT.hpp:68 | `min()` is 0 |
| TinyMT64.Engine.Max | include/PRNG/TinyMT.hpp:69 | `max()` is 2^64 - 1 |
| Iteration.IterateAdd | include/PRNG/TinyMT.hpp:52 | `m + n` steps are `n` steps after `m` steps, so `discard(m)` followed by `discard(n)` is `discard(m + n)` |
| MWC64X.MulSplit | include/PRNG/MWC64X.hpp:76-78 | the 64-bit product `a * x` is its `mul_hi` times 2^32 plus its wrapping 32-bit product |
| MWC64X.MulHiBound | include/PRNG/MWC64X.hpp:78 | `mul_hi` of two 32-bit words is at most 2^32 - 2, and reaches that bound |
| MWC64X.MadHiNoWrap | include/PRNG/MWC64X.hpp:78 | `mad_hi(a, x, k)` with `k` at most 1 is exactly `mul_hi(a, x) + k`: it never wraps |
| MWC64X.NextX | include/PRNG/MWC64X.hpp:76 | the new `x` is `(a * x + c) mod 2^32` |
| MWC64X.CarryIsWrap | include/PRNG/MWC64X.hpp:77 | the carry flag is 0 or 1; it is the carry out of adding `c` to the low word of `a * x`, so it is 1 exactly when that addition wrapped |
| MWC64X.NextC | include/PRNG/MWC64X.hpp:78 | the new `c` is the high word of `a * x` plus the carry flag, as integers |
| MWC64X.StepSplit | include/PRNG/MWC64X.hpp:74-82 | `cn * 2^32 + xn == a * x + c` exactly, as integers |
| MWC64X.AliasModulus | include/PRNG/MWC64X.hpp:85 | the alias's `M` is `A * 2^32 - 1` |
| MWC64X.StepIsLcg | include/PRNG/MWC64X.hpp:74-82 | with the value `c * 2^32 + x`, `a` times the old value is the new value plus `c * (a * 2^32 - 1)` |
| MWC64X.StepModulo | include/PRNG/MWC64X.hpp:74-82 | a step multiplies the value by `a` modulo `a * 2^32 - 1` |
| MWC64X.StepsIsLcg | include/PRNG/MWC64X.hpp:74-82 | after `n` steps the value is `a^n` times the starting value, modulo `a * 2^32 - 1` |
| MWC64X.Engine.constructor | include/PRNG/MWC64X.hpp:31 | the seeding constructor fixes only the multiplier; `seed` has an empty body |
| MWC64X.Engine.Copy | include/PRNG/MWC64X.hpp:36 | a copy has the same multiplier and the same `x` and `c` |
| MWC64X.Engine.NextState | include/PRNG/MWC64X.hpp:74-82 | only `x` and `c` change, and they become `Next(a, old state)` |
| MWC64X.Engine.GenerateAsWritten | include/PRNG/MWC64X.hpp:43-45 | `operator()` as written changes nothing |
| MWC64X.Engine.DiscardAsWritten | include/PRNG/MWC64X.hpp:47 | `discard(z)` as written never writes `x` or `c`: with the empty `operator()` read as a no-op, the state stays as it was for every `z` |
| MWC64X.FirstStepMoves | include/PRNG/MWC64X.hpp:47 | for `mwc64x` from `x` = 1, `c` = 0, one step gives `x` = `A`, `c` = 0, which differs from the starting state |
| MWC64X.Engine.Generate | include/PRNG/MWC64X.hpp:43-47 | `operator()` as intended steps once and returns the new `x`, which lies in [`min()`, `max()`] |
| MWC64X.Engine.Discard | include/PRNG/MWC64X.hpp:47 | `discard(z)` counts `z` down, stepping once per pass; the state becomes `z` steps of the old state, and `discard(0)` changes nothing |
| MWC64X.Engine.Equals | include/PRNG/MWC64X.hpp:49-54 | `==` holds if and only if `x` and `c` are both equal |
| MWC64X.Engine.NotEquals | include/PRNG/MWC64X.hpp:56-61 | `!=` is the exact negation of `==` |
| MWC64X.Engine.Min | include/PRNG/MWC64X.hpp:63 | `min()` is 0 |
| MWC64X.Engine.Max | include/PRNG/MWC64X.hpp:27-64 | `max()` is 2^32 - 1, which is `mask` |

## Left out

- Seed-sequence constructors and `seed(Sseq&)` (TinyMT.hpp:37, :43; MWC64X.hpp:33, :41): declared but never defined.
- TinyMT64 `seed(value)` (TinyMT.hpp:42): declared but never defined.
- MWC64X.Engine.constructor: `seed(value)` (MWC64X.hpp:38-40) is empty, so the constructor promises nothing about `x` and `c`. The C++ leaves them indeterminate; the model leaves them arbitrary: the constructor's `ensures` says nothing about `x` and `c`.
- MWC default constructor (MWC64X.hpp:35): it only delegates to the empty seeding, so there is nothing to add.
- MWC64X.Engine.DiscardAsWritten: for `z` >= 1 the source's behaviour is undefined, because each pass calls the empty `operator()`, which flows off the end of a value-returning function; the model reads the empty body as a no-op. Nothing in the loop calls `next_state` either way.
- MWC64X.Engine.GenerateAsWritten: the empty `operator()` returns no value. Flowing off the end of a value-returning function is undefined behaviour in C++. The model has no result for it.
- The template parameter `M` of the MWC engine is never used by the code. It only appears in `MWC64X.AliasModulus`.
- `mad_hi` is an OpenCL built-in. Only its arithmetic meaning is modelled, not a binding to it.
- The `std::is_standard_layout` checks, the concept headers and the example drivers: layout checks, compile-time detection, device dispatch, console I/O, floating-point distributions and `std::random_device`.
- TinyMT32 and GF(2) jump-ahead: not part of the modelled headers.
- TinyMT64.Engine.Equals and MWC64X.Engine.Equals require both engines to have the same parameters. In C++ the friend operators only accept engines of one template instance, so this matches.

## Findings

| source | as written | input that shows it | evidently intended | confidence | as-written member | corrected member |
|---|---|---|---|---|---|---|
| include/PRNG/MWC64X.hpp:43-47 | `operator()` has an empty body and `next_state` is called nowhere, so `discard(z)` never advances the state; for `z` >= 1 it calls a value-returning function that flows off its end, which is undefined behaviour, and the model reads that call as a no-op | the `mwc64x` engine with `x` = 1, `c` = 0 and `discard(1)`: the state stays (1, 0), while one step gives (4294883355, 0) | `operator()` runs `next_state`, so `discard(z)` advances the state by `z` steps; the source does not fix the returned value (the model returns the new `x`) | not executed; the empty body is plain in the text | MWC64X.Engine.DiscardAsWritten, MWC64X.FirstStepMoves | MWC64X.Engine.Discard |
| include/PRNG/TinyMT.hpp:52 | the loop body `this->operator();` names the member function without calling it; C++ rejects this once `discard` is instantiated, as `engine.discard(num)` in the SYCL example does for `tinymt_64` | any call of `discard` on a `tinymt_64` engine | one call of `operator()` per pass, so `discard(z)` advances the state by `z` steps | not executed; the missing call parentheses are plain in the text | none: no behaviour to model | TinyMT64.Engine.Discard |

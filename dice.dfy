/** `roll(count, sides)` of c2rust/src/lib.rs: the sum of `count` throws of a die
    with `sides` faces, accumulated in a `u16` with `checked_add`, or 0 when the
    arguments are out of range or the sum would overflow. The thread-local random
    generator is replaced by `draws`, the values `gen_range(1..=sides)` returns. */
module Dice {

  type U8 = x: int | 0 <= x < 0x100
  type U16 = x: int | 0 <= x < 0x1_0000

  const U16_MAX: int := 0xFFFF

  datatype Option<T> = None | Some(value: T)

  /** `Option::unwrap_or`. */
  function UnwrapOr<T>(o: Option<T>, default: T): T
  {
    match o
    case Some(v) => v
    case None => default
  }

  /** `u16::checked_add`. */
  function CheckedAdd(a: U16, b: U16): (r: Option<U16>)
    ensures r.Some? <==> a + b <= U16_MAX
    ensures r.Some? ==> r.value == a + b
  {
    if a + b <= U16_MAX then Some(a + b) else None
  }

  /** The `try_fold` over the draws, stopping at the first overflow. */
  function TryFold(sum: U16, draws: seq<U8>): Option<U16>
    decreases |draws|
  {
    if draws == [] then Some(sum)
    else match CheckedAdd(sum, draws[0])
      case None => None
      case Some(next) => TryFold(next, draws[1..])
  }

  function Sum(xs: seq<U8>): nat
  {
    if xs == [] then 0 else xs[0] + Sum(xs[1..])
  }

  /** The draws of one valid call: exactly `count` values, each in `1..=sides`. */
  predicate ValidDraws(count: U8, sides: U8, draws: seq<U8>)
  {
    |draws| == count && forall i :: 0 <= i < |draws| ==> 1 <= draws[i] <= sides
  }

  /** `try_fold` with `checked_add` yields the exact total when that total fits in a
      `u16`, and gives up otherwise. */
  lemma {:induction false} TryFoldIsCheckedSum(sum: U16, draws: seq<U8>)
    ensures TryFold(sum, draws) == if sum + Sum(draws) <= U16_MAX then Some(sum + Sum(draws)) else None
    decreases |draws|
  {
    if draws != [] {
      if sum + draws[0] <= U16_MAX {
        TryFoldIsCheckedSum(sum + draws[0], draws[1..]);
      }
    }
  }

  /** `count` throws of a `sides`-faced die total between `count` and `count * sides`. */
  lemma {:induction false} SumBounds(count: U8, sides: U8, draws: seq<U8>)
    requires ValidDraws(count, sides, draws)
    ensures count <= Sum(draws) <= count * sides
  {
    if count > 0 {
      SumBounds(count - 1, sides, draws[1..]);
    }
  }

  /** The largest possible sum, 255 throws of 255, is 65025 and fits in a `u16`. */
  lemma NoOverflow(count: U8, sides: U8)
    ensures count * sides <= 255 * 255 <= U16_MAX
  {
  }

  function Roll(count: U8, sides: U8, draws: seq<U8>): (r: U16)
    requires count >= 1 && sides >= 2 ==> ValidDraws(count, sides, draws)
    ensures count < 1 || sides < 2 ==> r == 0
    ensures count >= 1 && sides >= 2 ==> r == Sum(draws) && count <= r <= count * sides
  {
    if count < 1 || sides < 2 then 0
    else
      SumBounds(count, sides, draws);
      NoOverflow(count, sides);
      TryFoldIsCheckedSum(0, draws);
      UnwrapOr(TryFold(0, draws), 0)
  }

  /** The result is zero exactly when the arguments are rejected: the overflow
      branch of `unwrap_or(0)` is never taken. */
  lemma RollZeroIffRejected(count: U8, sides: U8, draws: seq<U8>)
    requires count >= 1 && sides >= 2 ==> ValidDraws(count, sides, draws)
    ensures Roll(count, sides, draws) == 0 <==> count < 1 || sides < 2
    ensures count >= 1 && sides >= 2 ==> TryFold(0, draws).Some?
  {
    if count >= 1 && sides >= 2 {
      SumBounds(count, sides, draws);
      NoOverflow(count, sides);
      TryFoldIsCheckedSum(0, draws);
    }
  }
}

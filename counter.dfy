/**
 * A static C# `int` counter incremented with unchecked `++`, as the
 * temporal-array egress template uses to number its generated classes: the
 * value after each increment, its closed form, and when values repeat.
 */
module Int32Counter {

  const MinInt32: int := -0x8000_0000
  const MaxInt32: int := 0x7FFF_FFFF
  const Two32: int := 0x1_0000_0000

  /** Unchecked `n++` on an `int`: MaxInt32 wraps to MinInt32. */
  function Next32(n: int): (m: int)
    requires MinInt32 <= n <= MaxInt32
    ensures MinInt32 <= m <= MaxInt32
  {
    if n == MaxInt32 then MinInt32 else n + 1
  }

  /** The value of a 32-bit signed counter that started at 0 and has been
      incremented `count` times with unchecked `++`. */
  function Counter32(count: nat): (v: int)
    ensures MinInt32 <= v <= MaxInt32
  {
    if count == 0 then 0 else Next32(Counter32(count - 1))
  }

  /** Closed form of the same value: `count` reduced into the int32 range. */
  function Wrap32(count: nat): (v: int)
    ensures MinInt32 <= v <= MaxInt32
    ensures count <= MaxInt32 ==> v == count
  {
    var r := count % Two32;
    if r <= MaxInt32 then r else r - Two32
  }

  /** Incrementing the wrapped value is wrapping the incremented count. */
  lemma Next32OfWrap32(count: nat)
    ensures Next32(Wrap32(count)) == Wrap32(count + 1)
  {
    var r := count % Two32;
    if r == Two32 - 1 {
      assert (count + 1) % Two32 == 0;
    } else {
      assert (count + 1) % Two32 == r + 1;
    }
  }

  /** The counter after `count` increments is `count` wrapped into int32. */
  lemma {:induction false} Counter32IsWrap32(count: nat)
    ensures Counter32(count) == Wrap32(count)
  {
    if count > 0 {
      Counter32IsWrap32(count - 1);
      Next32OfWrap32(count - 1);
    }
  }

  /** Fewer than 2^32 increments never revisit a counter value. */
  lemma Counter32Injective(i: nat, j: nat)
    requires i < Two32 && j < Two32
    requires Counter32(i) == Counter32(j)
    ensures i == j
  {
    Counter32IsWrap32(i);
    Counter32IsWrap32(j);
  }

  /** After 2^32 increments the counter is back at 0. */
  lemma Counter32Wraps()
    ensures Counter32(Two32) == 0
  {
    Counter32IsWrap32(Two32);
  }
}

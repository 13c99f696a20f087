/** The number of turns the agent loop may still take. */
module Budget {

  const U32_MAX := 0xFFFF_FFFF

  type u32 = x: int | 0 <= x <= U32_MAX

  function SaturatingAdd(a: u32, b: u32): u32 {
    if a + b <= U32_MAX then a + b else U32_MAX
  }

  class IterationBudget {
    const max: u32
    var remaining: u32

    ghost predicate Valid()
      reads this
    {
      remaining <= max
    }

    constructor (max: u32)
      ensures Valid() && this.max == max && remaining == max
    {
      this.max := max;
      remaining := max;
    }

    method TryConsume() returns (consumed: bool)
      requires Valid()
      modifies this
      ensures Valid() && consumed == (old(remaining) > 0)
      ensures remaining == if consumed then old(remaining) - 1 else old(remaining)
    {
      if remaining == 0 {
        return false;
      }
      remaining := remaining - 1;
      return true;
    }

    /** Gives turns back, never beyond the maximum, whatever `n` is. */
    method Refund(n: u32)
      requires Valid()
      modifies this
      ensures Valid()
      ensures remaining == if old(remaining) + n <= max then old(remaining) + n else max
    {
      var sum := SaturatingAdd(remaining, n);
      remaining := if sum <= max then sum else max;
    }
  }
}

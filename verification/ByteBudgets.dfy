/** Shared byte reservations (crates/ctxmux-daemon/src/resources.rs:362-411).

  `used` is changed only by a checked fetch-update and by permit drops, so it is
  always the sum of the outstanding permits and never exceeds the limit.
 */
module ByteBudgets {

  const U64_MAX: nat := 0xFFFF_FFFF_FFFF_FFFF

  class ByteBudget {
    const limit: nat
    var used: nat

    ghost predicate Valid()
      reads this
    {
      used <= limit <= U64_MAX
    }

    constructor (limit: nat)
      requires limit <= U64_MAX
      ensures Valid() && this.limit == limit && used == 0
    {
      this.limit := limit;
      used := 0;
    }

    /** Succeeds exactly when the permit still fits; a refusal changes nothing. */
    method Reserve(bytes: nat) returns (ok: bool)
      requires Valid()
      modifies this
      ensures Valid()
      ensures ok == (old(used) + bytes <= limit)
      ensures used == if ok then old(used) + bytes else old(used)
    {
      // The checked addition can only overflow when the sum is above the limit.
      ok := used + bytes <= U64_MAX && used + bytes <= limit;
      if ok {
        used := used + bytes;
      }
    }

    /** Drop of one permit. */
    method Release(bytes: nat)
      requires Valid() && bytes <= used
      modifies this
      ensures Valid() && used == old(used) - bytes
    {
      used := used - bytes;
    }
  }
}

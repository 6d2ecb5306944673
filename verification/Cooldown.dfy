/** The cooldown of the reconnecting client: a failure count and the delay that it stands for. */
module Cooldown {
  const INITIAL_COOLDOWN: nat := 2_000
  const MAX_COOLDOWN: nat := 30_000
  const U32_MAX: nat := 0xFFFF_FFFF

  function SaturatingInc(n: nat): nat {
    if n >= U32_MAX then U32_MAX else n + 1
  }

  /** `Instant::elapsed`, which does not go below zero. */
  function Elapsed(now: nat, since: nat): nat {
    if now >= since then now - since else 0
  }

  function Pow2(k: nat): (p: nat)
    ensures p >= 1
  {
    if k == 0 then 1 else 2 * Pow2(k - 1)
  }

  /** `current_cooldown`, in milliseconds. */
  function CurrentCooldown(failures: nat): nat {
    var shift := if failures <= 1 then 0 else if failures - 1 <= 16 then failures - 1 else 16;
    var d := INITIAL_COOLDOWN * Pow2(shift);
    if d <= MAX_COOLDOWN then d else MAX_COOLDOWN
  }

  lemma {:induction false} Pow2Monotone(a: nat, b: nat)
    requires a <= b
    ensures Pow2(a) <= Pow2(b)
  {
    if a < b {
      Pow2Monotone(a, b - 1);
    }
  }

  /** The delay doubles with each failure until it reaches half a minute, and stays there. */
  lemma CooldownSequence(failures: nat)
    requires failures >= 1
    ensures CurrentCooldown(1) == INITIAL_COOLDOWN
    ensures failures <= 3 ==> CurrentCooldown(failures + 1) == 2 * CurrentCooldown(failures)
    ensures failures >= 5 ==> CurrentCooldown(failures) == MAX_COOLDOWN
  {
    assert Pow2(1) == 2 && Pow2(2) == 4 && Pow2(3) == 8 && Pow2(4) == 16;
    if failures >= 5 {
      Pow2Monotone(4, if failures - 1 <= 16 then failures - 1 else 16);
    }
  }

  /** More failures never shorten the delay, which is between two seconds and half a minute. */
  lemma CooldownMonotone(a: nat, b: nat)
    requires a <= b
    ensures INITIAL_COOLDOWN <= CurrentCooldown(a) <= CurrentCooldown(b) <= MAX_COOLDOWN
  {
    var sa := if a <= 1 then 0 else if a - 1 <= 16 then a - 1 else 16;
    var sb := if b <= 1 then 0 else if b - 1 <= 16 then b - 1 else 16;
    Pow2Monotone(sa, sb);
  }
}

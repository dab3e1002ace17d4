/** Combo bookkeeping and the damage formula of a single hit on the boss. */
module Combat {

  /** Milliseconds of inactivity after which the next hit starts a new combo. */
  const ComboWindow: int := 1500

  /** The combo count beyond which the damage multiplier stops growing. */
  const ComboCap: nat := 10

  function Min(a: int, b: int): int { if a <= b then a else b }

  /**
   * The combo count after a hit at time `now` (milliseconds) when the
   * previous hit landed at `lastHitTime`: a gap longer than the combo window
   * first resets the count to 0, then every hit adds one.
   */
  function ComboAfterHit(comboCount: nat, lastHitTime: int, now: int): (c: nat)
    ensures c >= 1
    ensures now - lastHitTime > ComboWindow ==> c == 1
    ensures now - lastHitTime <= ComboWindow ==> c == comboCount + 1
  {
    var kept := if now - lastHitTime > ComboWindow then 0 else comboCount;
    kept + 1
  }

  /**
   * The combo multiplier in tenths: 1 + min(combo, 10) * 0.1 becomes
   * (10 + min(combo, 10)) / 10.
   */
  function MultiplierTenths(comboCount: nat): (m: nat)
    ensures 10 <= m <= 20
    ensures comboCount >= 1 ==> m >= 11
    ensures comboCount >= ComboCap ==> m == 20
  {
    10 + Min(comboCount, ComboCap)
  }

  lemma MulMono(a: nat, m: nat, n: nat)
    requires m <= n
    ensures a * m <= a * n
  {}

  /**
   * Damage of a hit with a weapon of damage `base` at combo count
   * `comboCount`: floor(base * multiplier), in exact arithmetic.
   */
  function Damage(base: nat, comboCount: nat): (d: nat)
    ensures base <= d <= 2 * base
    ensures comboCount >= 1 ==> d >= base + base / 10
    ensures comboCount >= ComboCap ==> d == 2 * base
  {
    var m := MultiplierTenths(comboCount);
    MulMono(base, 10, m);
    MulMono(base, m, 20);
    MulMono(base, if comboCount >= 1 then 11 else m, m);
    base * m / 10
  }

  /** A longer combo never deals less damage. */
  lemma DamageMonotoneInCombo(base: nat, c1: nat, c2: nat)
    requires c1 <= c2
    ensures Damage(base, c1) <= Damage(base, c2)
  {
    MulMono(base, MultiplierTenths(c1), MultiplierTenths(c2));
  }
}

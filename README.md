# Beat the Boss: the game-session state machine

A model of the `Game` class of the browser clicker game Beat the Boss
(`src/game.ts`). The player clicks a boss to deal damage with the selected
weapon. Each hit earns money equal to its damage and builds a combo that
multiplies damage up to 2x. When health falls to 7% or below, "finish him"
mode starts. A hit that takes health to 0 runs a finisher and ends the game
until restart. Each hit also spawns a burst of particles, and every animation
frame decays them and removes the expired ones.

The model keeps the class's own fields and drops the DOM, the canvas and the
Web Audio calls:

- `combat.dfy`, module `Combat`: the combo update and the damage formula,
  `floor(base * (1 + min(combo, 10) * 0.1))`, in exact integer tenths.
- `particles.dfy`, module `Particles`: particle records, the burst a hit
  appends (`Burst`), and one frame of decay and removal (`Tick`), proved to
  be an order-preserving filter.
- `arsenal.dfy`, module `Arsenal`: the weapon record and the shipped
  catalogue of eight weapons.
- `rules.dfy`, module `GameRules`: a `Session` value holding the game's
  fields, the invariant `Inv`, one function per event (hit, combo timeout,
  card click, end of finisher, animation frame, restart), `Run` over event
  sequences, and the lemmas about runs.
- `game.dfy`, module `BossGame`: class `Game` with the same fields. Its
  methods update them in place as the source does. Each method is proved to
  leave exactly the session `GameRules` prescribes, or `old(Snapshot())`
  with its one changed field. `CreateParticles` and
  `UpdateParticles` keep the source's loops: the second walks the list
  backwards and splices out expired particles.

Time, randomness and geometry enter as parameters:

- `Date.now()` is the argument `now`.
- The 1500 ms combo timer, the finisher timer and the animation frame are
  explicit events: `ComboTimeout`, `FinisherDone` and `AnimationFrame`.
- The hit point is a `Point`.
- Each new particle's velocity and size come from a `spray` function. In the
  source they are cos/sin of angle `2*pi*i/count` times a random speed, plus
  a random size.

Units:

- Life, position and velocity are integers in hundredths: full life is 100,
  each frame takes away 2, and gravity adds 20.
- The health percentage test `0 < health% <= 7` is the cross-multiplication
  `0 < health && health * 100 <= 7 * maxHealth`.
- `maxHealth` is never assigned in the source, so it is the constant
  `MaxHealth = 100`.

Details of the code that the model keeps:

- `updateCombo` runs before the damage is computed (src/game.ts:526-531,
  584), so the first hit of a combo already has x1.1: a punch deals 5, a bat
  11 (`GameRules.FirstPunch`, `GameRules.FirstBatHit`).
- Restart restores a catalogue in which every cost is 0
  (src/game.ts:864-873).
- Only restart clears finish-him mode (`GameRules.FinishHimLatches`).

With the shipped catalogue every weapon is free, so the paying branch of
`buyWeapon` never runs. `GameRules.Buy` is therefore stated over arbitrary
non-negative costs. `GameRules.Reachable` shows that in the shipped game,
money is always the starting 1000 plus the damage dealt since the last
restart.

## Model

| member | source | states |
|---|---|---|
| Combat.ComboAfterHit | src/game.ts:575-585 | the count after a hit is at least 1: exactly 1 after a gap over 1500 ms, otherwise the old count plus one |
| Combat.MultiplierTenths | src/game.ts:529-530 | the multiplier lies between 1.0x and 2.0x, is at least 1.1x from combo 1 on, and is exactly 2.0x from combo 10 on |
| Combat.Damage | src/game.ts:528-531 | damage lies between base and 2*base, is at least base + base/10 for any hit (combo >= 1), and is exactly 2*base at combo >= 10 |
| Combat.DamageMonotoneInCombo | src/game.ts:530-531 | a longer combo never deals less damage |
| Particles.Burst | src/game.ts:738-757 | a burst holds exactly `count` particles, each at the hit point, in the weapon's colour, with life = maxLife = 1 |
| Particles.Tick | src/game.ts:760-774 | a frame never lengthens the list, and every particle it keeps has life > 0 |
| Particles.TickIsOrderedFilter | src/game.ts:763-774 | a frame keeps exactly the particles whose decayed life is > 0, each decayed by one step, in their original relative order |
| Particles.TickWellFormed | src/game.ts:769-773 | after a frame every particle still has life in (0, 1] and maxLife 1 |
| Particles.TickUniform | src/game.ts:769-773 | when all particles share a life value, a frame lowers it by one step for all and keeps all of them or none |
| Particles.FramesUniform | src/game.ts:769-773 | after n frames a uniform list has lost n steps of life, and it is empty once that reaches 0 |
| Particles.BurstLifetime | src/game.ts:738-774 | a burst survives 49 frames intact and is gone after the 50th |
| Particles.BackwardStep | src/game.ts:763-774 | one step of the backwards walk extends the finished suffix: the current particle is decayed in place, or spliced out when it expires |
| Arsenal.CatalogueShape | src/game.ts:60-69 | the catalogue holds eight weapons, punch first with damage 5, and every cost is 0 |
| GameRules.Initial | src/game.ts:44-69 | the starting session: health 100, total damage 0, money 1000, no combo, no flags, the catalogue with punch selected, no particles; it satisfies the invariant |
| GameRules.UpdateCombo | src/game.ts:575-585 | the combo count resets to 1 after a gap over 1500 ms and otherwise rises by 1; lastHitTime becomes now; no other field changes |
| GameRules.ResetCombo | src/game.ts:608-611 | the combo count becomes 0 and no other field changes |
| GameRules.Hit | src/game.ts:518-573 | once the game is over a hit changes nothing. Otherwise the combo count is updated as `ComboAfterHit` says and lastHitTime becomes now; health becomes max(0, health - damage), and total damage and money each rise by exactly the damage. The game ends exactly when health reaches 0. Finish-him mode is never cleared, turns on only inside (0, 7%], and always does when health lands there. The old particles are kept, followed by exactly the burst at the hit point in the weapon's colour, with the weapon's particle count doubled when finish-him mode is on after the hit. The invariant is kept |
| GameRules.Buy | src/game.ts:506-516 | a purchase succeeds exactly when the weapon is free or affordable. A free weapon, or a failed purchase, changes nothing. A paid purchase subtracts the cost, sets that weapon's cost to 0 and changes nothing else. Money never goes negative |
| GameRules.SelectCard | src/game.ts:452-500 | the card click selects weapon i exactly when it is affordable, and then leaves the session `Buy` leaves (charged, weapon freed) with i selected; otherwise nothing changes; health, damage and game-over are untouched; the invariant is kept |
| GameRules.EndGame | src/game.ts:839-840 | the game is marked over and nothing else changes |
| GameRules.Frame | src/game.ts:760-774 | an animation frame replaces the particle list by `Tick` of it (the ordered filter of `TickIsOrderedFilter`), changes nothing else and keeps the invariant |
| GameRules.Restart | src/game.ts:853-874 | restart yields the starting session except for lastHitTime, which it leaves as it was |
| GameRules.Step | src/game.ts:111-116 | every event (boss click, combo timeout, card click, finisher end, frame, restart) keeps the invariant |
| GameRules.Run | src/game.ts:111-116 | the invariant of the fields declared at src/game.ts:44-58 under the event wiring (boss click, restart, card clicks at line 493, frames at lines 885-888): every sequence of events keeps health in [0, 100] and equal to max(0, 100 - total damage), keeps money non-negative, and keeps health 0 implying game over |
| GameRules.FirstPunch | src/game.ts:526-535 | the first punch of a session deals 5: health 95, total damage 5, money 1005, combo 1 |
| GameRules.FirstBatHit | src/game.ts:526-535 | the first bat hit already has the x1.1 multiplier: it deals 11, leaving health 89 and money 1011 |
| GameRules.GameOverIsTerminal | src/game.ts:519-571 | from a finished game, any run without a restart keeps the game over and leaves health and total damage unchanged |
| GameRules.FinishHimLatches | src/game.ts:541-543 | once finish-him mode is on, any run without a restart leaves it on |
| GameRules.TotalDamageIsSumOfHits | src/game.ts:533-534 | without a restart, total damage grows by exactly the sum of the damage of the hits in the run |
| GameRules.BoughtStaysFree | src/game.ts:506-516 | after a successful purchase the weapon costs 0, and buying it again succeeds and changes nothing |
| GameRules.ShippedRun | src/game.ts:506-516 | with the shipped all-free catalogue, money equal to 1000 plus total damage is kept by every run |
| GameRules.Reachable | src/game.ts:533-535 | in every session reached from the start, money is 1000 plus the total damage, health is max(0, 100 - total damage), and the catalogue is the shipped one |
| BossGame.Game.constructor | src/game.ts:44-92 | the new game's fields are the starting session |
| BossGame.Game.HitBoss | src/game.ts:518-573 | the fields after a click are the result of `GameRules.Hit` on those before |
| BossGame.Game.UpdateCombo | src/game.ts:575-585 | the fields after the combo update are the result of `GameRules.UpdateCombo` |
| BossGame.Game.ResetCombo | src/game.ts:608-611 | only the combo count changes, to 0 |
| BossGame.Game.ActivateFinishHimMode | src/game.ts:613-614 | only the finish-him flag changes, to on |
| BossGame.Game.PerformFinisher | src/game.ts:632-633 | only the game-over flag changes, to on |
| BossGame.Game.EndGame | src/game.ts:839-840 | only the game-over flag changes, to on |
| BossGame.Game.BuyWeapon | src/game.ts:506-516 | the fields and the result are those of `GameRules.Buy`; the chosen weapon's cost is set to 0 in place |
| BossGame.Game.ClickWeaponCard | src/game.ts:493-500 | the affordability check, then the purchase, then the selection, as `GameRules.SelectCard` |
| BossGame.Game.Restart | src/game.ts:853-874 | the fields after restart are the result of `GameRules.Restart` |
| BossGame.Game.CreateParticles | src/game.ts:738-757 | the counting loop appends exactly `Burst(at, color, count, spray)` to the particle list and changes nothing else |
| BossGame.Game.UpdateParticles | src/game.ts:760-774 | the backwards walk with in-place splicing leaves exactly `Tick` of the old list and changes nothing else |
| BossGame.Game.Handle | src/game.ts:111-116 | each event reaches its handler, and the fields end as `GameRules.Step` prescribes |

## Left out

- Procedural audio: the `play*Sound` methods are calls into Web Audio with floating-point envelopes. This includes the boss-hurt sound's health tiers and its 100 ms delay.
- DOM and canvas presentation: panel opening and closing, the HTML of the weapon cards, damage numbers, boss and screen shake, combo display classes, health/damage/money text, the finish-him banner and the game-over screen. The drawing part of `updateParticles` is left out too.
- The finisher's choice among five named animations and its text colour: both are random and only presentational. `PerformFinisher` models the flag it sets.
- Timers are not scheduled or cancelled. Each one is the event it fires: `ComboTimeout` stands for the 1500 ms combo timer (rearmed on every hit) and `FinisherDone` for the finisher's end. The model lets these events arrive in any order, which covers every schedule the timers allow.
- The card's `canAfford` flag is captured when the weapons grid is rendered. The grid is rendered again after every change of money (hit, purchase, restart), so `ClickWeaponCard` computes the flag at click time.
- Particle physics is in integer hundredths. The random speed and size, and the trigonometry of the angle, arrive through `spray`. Floating-point position and velocity updates are not modelled.
- Particles.Tick: life is an integer, starting at 100 and decreasing by 2 per frame. The source subtracts 0.02 in floating point. That gives the same 50-frame lifetime, but is not modelled bit for bit.
- GameRules.InFinishHimZone: the source computes `(health / maxHealth) * 100` in double precision. There, health 7 gives 7.000000000000001, so the source does not enter finish-him mode at exactly 7 health. The model's exact test does. With maxHealth 100, the source's zone is health 1 to 6.
- Combat.Damage: exact arithmetic. For every catalogue damage and combo count the floating-point product floors to the same value. For some damages outside the catalogue (e.g. 45 at combo 4) double precision floors one lower.

/**
 * The rules of one boss fight as functions on a snapshot of the game's
 * fields: what each event (a click on the boss, the combo timer firing, a
 * click on a weapon card, the end of the finisher, an animation frame, a
 * click on restart) does to the session, and what stays true across any
 * sequence of them.
 */
module GameRules {
  import opened Combat
  import opened Particles
  import opened Arsenal

  const MaxHealth: int := 100
  const StartMoney: int := 1000

  /** Health percentage at or below which the boss is ready to be finished. */
  const FinishHimPercent: int := 7

  function Max(a: int, b: int): int { if a >= b then a else b }

  /** The fields of the game object that the rules read and write. */
  datatype Session = Session(
    health: int,
    totalDamage: int,
    money: int,
    comboCount: nat,
    lastHitTime: int,
    isFinishHimMode: bool,
    isGameOver: bool,
    weapons: seq<Weapon>,
    selected: nat,
    particles: seq<Particle>)

  /**
   * What holds of every session the rules produce: health is clamped to
   * [0, MaxHealth] and is exactly what the accumulated damage leaves of it;
   * money is never negative; a dead boss means the game is over; the
   * selected weapon exists; every particle is alive with life at most 1.
   */
  predicate Inv(s: Session)
  {
    && 0 <= s.health <= MaxHealth
    && s.health == Max(0, MaxHealth - s.totalDamage)
    && s.money >= 0
    && (s.health == 0 ==> s.isGameOver)
    && s.selected < |s.weapons|
    && WellFormed(s.particles)
  }

  /** The session the game object starts with. */
  function Initial(): (s: Session)
    ensures Inv(s)
    ensures s.health == MaxHealth && s.totalDamage == 0 && s.money == StartMoney
    ensures !s.isGameOver && !s.isFinishHimMode && s.comboCount == 0
    ensures s.weapons == Catalogue && s.weapons[s.selected].id == "punch" && s.particles == []
  {
    Session(MaxHealth, 0, StartMoney, 0, 0, false, false, Catalogue, 0, [])
  }

  /** 0 < health% <= 7, by cross-multiplication instead of a percentage. */
  predicate InFinishHimZone(health: int)
  {
    0 < health && health * 100 <= FinishHimPercent * MaxHealth
  }

  /** The combo update every hit starts with. */
  function UpdateCombo(s: Session, now: int): (t: Session)
    ensures t.comboCount >= 1 && t.lastHitTime == now
    ensures now - s.lastHitTime > ComboWindow ==> t.comboCount == 1
    ensures now - s.lastHitTime <= ComboWindow ==> t.comboCount == s.comboCount + 1
    ensures t.(comboCount := s.comboCount, lastHitTime := s.lastHitTime) == s
  {
    s.(comboCount := ComboAfterHit(s.comboCount, s.lastHitTime, now), lastHitTime := now)
  }

  /** The combo timer firing, 1500 ms after the last hit. */
  function ResetCombo(s: Session): (t: Session)
    ensures t.comboCount == 0
    ensures t.(comboCount := s.comboCount) == s
  {
    s.(comboCount := 0)
  }

  /** The damage a hit at time `now` deals with the selected weapon. */
  function HitDamage(s: Session, now: int): nat
    requires s.selected < |s.weapons|
  {
    Damage(s.weapons[s.selected].damage, UpdateCombo(s, now).comboCount)
  }

  /** Particles a hit spawns: the weapon's count, doubled in finish-him mode. */
  function BurstSize(w: Weapon, finishHim: bool): nat
  {
    w.particleCount * (if finishHim then 2 else 1)
  }

  /**
   * A click on the boss at time `now`, at point `at`, with `spray` giving
   * each new particle's velocity and size.
   */
  function Hit(s: Session, now: int, at: Point, spray: nat -> Spray): (t: Session)
    requires Inv(s)
    ensures Inv(t)
    ensures s.isGameOver ==> t == s
    ensures !s.isGameOver ==>
      var d := HitDamage(s, now);
      && t.health == Max(0, s.health - d)
      && t.totalDamage == s.totalDamage + d
      && t.money == s.money + d
      && t.isGameOver == (t.health == 0)
      && t.weapons == s.weapons && t.selected == s.selected
      && t.comboCount == ComboAfterHit(s.comboCount, s.lastHitTime, now)
      && t.lastHitTime == now
    ensures s.isFinishHimMode ==> t.isFinishHimMode
    ensures t.isFinishHimMode && !s.isFinishHimMode ==> InFinishHimZone(t.health)
    ensures !s.isGameOver && InFinishHimZone(t.health) ==> t.isFinishHimMode
    ensures !s.isGameOver ==>
      |t.particles| == |s.particles| + BurstSize(s.weapons[s.selected], t.isFinishHimMode) &&
      t.particles[..|s.particles|] == s.particles &&
      t.particles[|s.particles|..] ==
        Burst(at, s.weapons[s.selected].color, BurstSize(s.weapons[s.selected], t.isFinishHimMode), spray)
  {
    if s.isGameOver then s
    else
      var c := UpdateCombo(s, now);
      var w := c.weapons[c.selected];
      var d := Damage(w.damage, c.comboCount);
      var health := Max(0, c.health - d);
      var finishHim := if InFinishHimZone(health) && !c.isFinishHimMode then true else c.isFinishHimMode;
      var burst := Burst(at, w.color, BurstSize(w, finishHim), spray);
      c.(
        health := health,
        totalDamage := c.totalDamage + d,
        money := c.money + d,
        isFinishHimMode := finishHim,
        particles := c.particles + burst,
        isGameOver := health <= 0)
  }

  /** The affordability check the weapon card applies before buying. */
  predicate CanAfford(money: int, w: Weapon)
  {
    money >= w.cost || w.cost == 0
  }

  /**
   * Buying weapon `i`: free weapons cost nothing; otherwise the money is
   * charged only if it covers the cost, and the weapon becomes free for good.
   */
  function Buy(s: Session, i: nat): (r: (Session, bool))
    requires i < |s.weapons|
    ensures r.1 == CanAfford(s.money, s.weapons[i])
    ensures !r.1 || Free(s.weapons[i]) ==> r.0 == s
    ensures r.1 && !Free(s.weapons[i]) ==>
      && r.0.money == s.money - s.weapons[i].cost
      && r.0.weapons == s.weapons[i := s.weapons[i].(cost := 0)]
      && r.0.(money := s.money, weapons := s.weapons) == s
    ensures s.money >= 0 ==> r.0.money >= 0
  {
    var w := s.weapons[i];
    if w.cost == 0 then (s, true)
    else if s.money >= w.cost then
      (s.(money := s.money - w.cost, weapons := s.weapons[i := w.(cost := 0)]), true)
    else (s, false)
  }

  /**
   * A click on the card of weapon `i`: when the weapon is affordable it is
   * bought and selected; otherwise nothing happens.
   */
  function SelectCard(s: Session, i: nat): (t: Session)
    requires Inv(s) && i < |s.weapons|
    ensures Inv(t)
    ensures t.selected == if CanAfford(s.money, s.weapons[i]) then i else s.selected
    ensures !CanAfford(s.money, s.weapons[i]) ==> t == s
    ensures CanAfford(s.money, s.weapons[i]) ==> t == Buy(s, i).0.(selected := i)
    ensures t.health == s.health && t.totalDamage == s.totalDamage && t.isGameOver == s.isGameOver
  {
    if CanAfford(s.money, s.weapons[i]) then
      var r := Buy(s, i);
      if r.1 then r.0.(selected := i) else s
    else s
  }

  /** The finisher's timer running out: the game is (again) marked over. */
  function EndGame(s: Session): (t: Session)
    ensures t.isGameOver
    ensures t.(isGameOver := s.isGameOver) == s
  {
    s.(isGameOver := true)
  }

  /** One animation frame of the particle list. */
  function Frame(s: Session): (t: Session)
    requires Inv(s)
    ensures Inv(t)
    ensures t.particles == Tick(s.particles)
    ensures t.(particles := s.particles) == s
  {
    TickWellFormed(s.particles);
    s.(particles := Tick(s.particles))
  }

  /**
   * The restart button: every field returns to its starting value, except
   * the time of the last hit, which restart leaves as it was.
   */
  function Restart(s: Session): (t: Session)
    ensures Inv(t)
    ensures t == Initial().(lastHitTime := s.lastHitTime)
  {
    s.(
      health := MaxHealth,
      totalDamage := 0,
      money := StartMoney,
      isGameOver := false,
      particles := [],
      comboCount := 0,
      isFinishHimMode := false,
      weapons := Catalogue,
      selected := 0)
  }

  /** The inputs the game reacts to; timers appear as the events they fire. */
  datatype Event =
    | BossClick(now: int, at: Point, spray: nat -> Spray)
    | ComboTimeout
    | WeaponCardClick(index: nat)
    | FinisherDone
    | AnimationFrame
    | RestartClick

  /** One event. A card click names a rendered card, so a bad index does nothing. */
  function Step(s: Session, e: Event): (t: Session)
    requires Inv(s)
    ensures Inv(t)
  {
    match e
    case BossClick(now, at, spray) => Hit(s, now, at, spray)
    case ComboTimeout => ResetCombo(s)
    case WeaponCardClick(i) => if i < |s.weapons| then SelectCard(s, i) else s
    case FinisherDone => EndGame(s)
    case AnimationFrame => Frame(s)
    case RestartClick => Restart(s)
  }

  /** A sequence of events, in order. */
  function Run(s: Session, evs: seq<Event>): (t: Session)
    requires Inv(s)
    ensures Inv(t)
    decreases |evs|
  {
    if evs == [] then s else Run(Step(s, evs[0]), evs[1..])
  }

  predicate NoRestart(evs: seq<Event>)
  {
    forall k :: 0 <= k < |evs| ==> !evs[k].RestartClick?
  }

  /**
   * The first punch of a session deals 5 (combo 1 gives x1.1, floored),
   * whatever the clock says.
   */
  lemma FirstPunch(now: int, at: Point, spray: nat -> Spray)
    ensures var t := Hit(Initial(), now, at, spray);
      t.health == 95 && t.totalDamage == 5 && t.money == 1005 && t.comboCount == 1 && !t.isGameOver
  {}

  /** The first bat hit already carries the combo bonus: 10 becomes 11. */
  lemma FirstBatHit(now: int, at: Point, spray: nat -> Spray)
    ensures var t := Hit(SelectCard(Initial(), 1), now, at, spray);
      t.health == 89 && t.totalDamage == 11 && t.money == 1011
  {}

  /** Once the boss is finished, no event but restart revives it or adds damage. */
  lemma {:induction false} GameOverIsTerminal(s: Session, evs: seq<Event>)
    requires Inv(s) && s.isGameOver && NoRestart(evs)
    ensures Run(s, evs).isGameOver
    ensures Run(s, evs).health == s.health && Run(s, evs).totalDamage == s.totalDamage
    decreases |evs|
  {
    if evs != [] {
      var s' := Step(s, evs[0]);
      assert NoRestart(evs[1..]) by {
        forall k | 0 <= k < |evs[1..]| ensures !evs[1..][k].RestartClick? {
          assert evs[1..][k] == evs[k + 1];
        }
      }
      GameOverIsTerminal(s', evs[1..]);
    }
  }

  /** Finish-him mode, once on, stays on until a restart. */
  lemma {:induction false} FinishHimLatches(s: Session, evs: seq<Event>)
    requires Inv(s) && s.isFinishHimMode && NoRestart(evs)
    ensures Run(s, evs).isFinishHimMode
    decreases |evs|
  {
    if evs != [] {
      var s' := Step(s, evs[0]);
      assert NoRestart(evs[1..]) by {
        forall k | 0 <= k < |evs[1..]| ensures !evs[1..][k].RestartClick? {
          assert evs[1..][k] == evs[k + 1];
        }
      }
      FinishHimLatches(s', evs[1..]);
    }
  }

  /** Damage each event deals: a hit's damage, or 0 when it is ignored or not a hit. */
  function Dealt(s: Session, e: Event): nat
    requires Inv(s)
  {
    if e.BossClick? && !s.isGameOver then HitDamage(s, e.now) else 0
  }

  /** The damage every event of a run deals, in order. */
  function DamageLog(s: Session, evs: seq<Event>): (log: seq<nat>)
    requires Inv(s)
    decreases |evs|
  {
    if evs == [] then [] else [Dealt(s, evs[0])] + DamageLog(Step(s, evs[0]), evs[1..])
  }

  function Sum(xs: seq<nat>): nat
  {
    if xs == [] then 0 else xs[0] + Sum(xs[1..])
  }

  /** Without a restart, the total damage grows by exactly the sum of the hits' damage. */
  lemma {:induction false} TotalDamageIsSumOfHits(s: Session, evs: seq<Event>)
    requires Inv(s) && NoRestart(evs)
    ensures Run(s, evs).totalDamage == s.totalDamage + Sum(DamageLog(s, evs))
    decreases |evs|
  {
    if evs != [] {
      var s' := Step(s, evs[0]);
      assert s'.totalDamage == s.totalDamage + Dealt(s, evs[0]);
      assert NoRestart(evs[1..]) by {
        forall k | 0 <= k < |evs[1..]| ensures !evs[1..][k].RestartClick? {
          assert evs[1..][k] == evs[k + 1];
        }
      }
      TotalDamageIsSumOfHits(s', evs[1..]);
    }
  }

  /** A successful purchase makes the weapon free: buying it again costs nothing. */
  lemma BoughtStaysFree(s: Session, i: nat)
    requires i < |s.weapons| && Buy(s, i).1
    ensures Free(Buy(s, i).0.weapons[i])
    ensures Buy(Buy(s, i).0, i) == (Buy(s, i).0, true)
  {}

  /**
   * With the shipped catalogue, in which every weapon is free, purchases
   * never move money: every session reached from the start holds exactly
   * the starting money plus the total damage.
   */
  predicate Shipped(s: Session)
  {
    Inv(s) && s.weapons == Catalogue && s.money == StartMoney + s.totalDamage
  }

  lemma {:induction false} ShippedStep(s: Session, e: Event)
    requires Shipped(s)
    ensures Shipped(Step(s, e))
  {
    CatalogueShape();
    match e
    case WeaponCardClick(i) =>
      if i < |s.weapons| {
        assert Free(s.weapons[i]);
      }
    case _ =>
  }

  lemma {:induction false} ShippedRun(s: Session, evs: seq<Event>)
    requires Shipped(s)
    ensures Shipped(Run(s, evs))
    decreases |evs|
  {
    if evs != [] {
      ShippedStep(s, evs[0]);
      ShippedRun(Step(s, evs[0]), evs[1..]);
    }
  }

  /**
   * Every session the game reaches: money is the starting money plus all
   * damage dealt since the last restart, and health is what that damage
   * leaves of MaxHealth, never below 0.
   */
  lemma Reachable(evs: seq<Event>)
    ensures var t := Run(Initial(), evs);
      t.money == StartMoney + t.totalDamage &&
      t.health == Max(0, MaxHealth - t.totalDamage) &&
      0 <= t.health <= MaxHealth &&
      t.weapons == Catalogue
  {
    ShippedRun(Initial(), evs);
  }
}

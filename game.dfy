/**
 * The game object: its fields change in place, step by step, and each
 * method is proved to leave exactly the session the rules in GameRules
 * prescribe.
 */
module BossGame {
  import opened Combat
  import opened Particles
  import opened Arsenal
  import GameRules

  class Game {
    var health: int
    var totalDamage: int
    var money: int
    var comboCount: nat
    var lastHitTime: int
    var isFinishHimMode: bool
    var isGameOver: bool
    var weapons: seq<Weapon>
    /** Index into `weapons` of the selected weapon. */
    var selectedWeapon: nat
    var particles: seq<Particle>

    /** The fields as a session value. */
    function Snapshot(): GameRules.Session
      reads this
    {
      GameRules.Session(health, totalDamage, money, comboCount, lastHitTime,
        isFinishHimMode, isGameOver, weapons, selectedWeapon, particles)
    }

    ghost predicate Valid()
      reads this
    {
      GameRules.Inv(Snapshot())
    }

    constructor ()
      ensures Valid()
      ensures Snapshot() == GameRules.Initial()
    {
      health := GameRules.MaxHealth;
      totalDamage := 0;
      money := GameRules.StartMoney;
      particles := [];
      isGameOver := false;
      comboCount := 0;
      isFinishHimMode := false;
      lastHitTime := 0;
      weapons := Catalogue;
      selectedWeapon := 0;
    }

    /** Clicking the boss. */
    method HitBoss(now: int, at: Point, spray: nat -> Spray)
      requires Valid()
      modifies this
      ensures Valid()
      ensures Snapshot() == GameRules.Hit(old(Snapshot()), now, at, spray)
    {
      if isGameOver {
        return;
      }
      UpdateCombo(now);
      var weapon := weapons[selectedWeapon];
      var damage := Damage(weapon.damage, comboCount);
      health := GameRules.Max(0, health - damage);
      totalDamage := totalDamage + damage;
      money := money + damage;
      if GameRules.InFinishHimZone(health) && !isFinishHimMode {
        ActivateFinishHimMode();
      }
      CreateParticles(at, weapon.color, weapon.particleCount * (if isFinishHimMode then 2 else 1), spray);
      if health <= 0 {
        PerformFinisher();
      }
    }

    method UpdateCombo(now: int)
      modifies this
      ensures Snapshot() == GameRules.UpdateCombo(old(Snapshot()), now)
    {
      var timeSinceLastHit := now - lastHitTime;
      if timeSinceLastHit > ComboWindow {
        comboCount := 0;
      }
      comboCount := comboCount + 1;
      lastHitTime := now;
    }

    /** The combo timer firing. */
    method ResetCombo()
      modifies this
      ensures Snapshot() == GameRules.ResetCombo(old(Snapshot()))
    {
      comboCount := 0;
    }

    method ActivateFinishHimMode()
      modifies this
      ensures Snapshot() == old(Snapshot()).(isFinishHimMode := true)
    {
      isFinishHimMode := true;
    }

    /** Start of the finisher: further hits are ignored from here on. */
    method PerformFinisher()
      modifies this
      ensures Snapshot() == GameRules.EndGame(old(Snapshot()))
    {
      isGameOver := true;
    }

    /** The finisher's timer running out. */
    method EndGame()
      modifies this
      ensures Snapshot() == GameRules.EndGame(old(Snapshot()))
    {
      isGameOver := true;
    }

    method BuyWeapon(i: nat) returns (bought: bool)
      requires i < |weapons|
      modifies this
      ensures (Snapshot(), bought) == GameRules.Buy(old(Snapshot()), i)
    {
      if weapons[i].cost == 0 {
        return true;
      }
      if money >= weapons[i].cost {
        money := money - weapons[i].cost;
        weapons := weapons[i := weapons[i].(cost := 0)];
        return true;
      }
      return false;
    }

    /** Clicking the card of weapon `i` in the weapons panel. */
    method ClickWeaponCard(i: nat)
      requires Valid() && i < |weapons|
      modifies this
      ensures Valid()
      ensures Snapshot() == GameRules.SelectCard(old(Snapshot()), i)
    {
      var canAfford := money >= weapons[i].cost || weapons[i].cost == 0;
      if canAfford {
        var bought := BuyWeapon(i);
        if bought {
          selectedWeapon := i;
        }
      }
    }

    method Restart()
      modifies this
      ensures Valid()
      ensures Snapshot() == GameRules.Restart(old(Snapshot()))
    {
      health := GameRules.MaxHealth;
      totalDamage := 0;
      money := GameRules.StartMoney;
      isGameOver := false;
      particles := [];
      comboCount := 0;
      isFinishHimMode := false;
      ResetCombo();
      weapons := Catalogue;
      selectedWeapon := 0;
    }

    /** Appends `count` particles at `at`, one per iteration. */
    method CreateParticles(at: Point, color: string, count: nat, spray: nat -> Spray)
      modifies this
      ensures Snapshot() == old(Snapshot()).(particles := old(particles) + Burst(at, color, count, spray))
    {
      ghost var burst := Burst(at, color, count, spray);
      for i := 0 to count
        invariant particles == old(particles) + burst[..i]
        invariant Snapshot().(particles := old(particles)) == old(Snapshot())
      {
        assert burst[..i + 1] == burst[..i] + [Spawn(at, color, spray(i))];
        particles := particles + [Spawn(at, color, spray(i))];
      }
      assert burst[..count] == burst;
    }

    /**
     * One animation frame: walks the list from the back, decays each
     * particle and removes it in place once its life is used up.
     */
    method UpdateParticles()
      requires Valid()
      modifies this
      ensures Valid()
      ensures Snapshot() == GameRules.Frame(old(Snapshot()))
    {
      ghost var before := particles;
      var i := |particles|;
      while i > 0
        invariant 0 <= i <= |before|
        invariant particles == before[..i] + Tick(before[i..])
        invariant Snapshot().(particles := before) == old(Snapshot())
      {
        i := i - 1;
        BackwardStep(before, particles, i);
        var p := Decay(particles[i]);
        if p.life <= 0 {
          particles := particles[..i] + particles[i + 1..];
        } else {
          particles := particles[i := p];
        }
      }
      assert before[0..] == before;
      TickWellFormed(before);
    }

    /** The event wiring: each input or timer reaches the method that handles it. */
    method Handle(e: GameRules.Event)
      requires Valid()
      modifies this
      ensures Valid()
      ensures Snapshot() == GameRules.Step(old(Snapshot()), e)
    {
      match e
      case BossClick(now, at, spray) => HitBoss(now, at, spray);
      case ComboTimeout => ResetCombo();
      case WeaponCardClick(i) =>
        if i < |weapons| {
          ClickWeaponCard(i);
        }
      case FinisherDone => EndGame();
      case AnimationFrame => UpdateParticles();
      case RestartClick => Restart();
    }
  }
}

/**
 * The particle records spawned by hits and the per-frame decay that expires
 * them. Life, position and velocity are integers in hundredths (life 1.0 is
 * 100, the per-frame decrement 0.02 is 2, gravity 0.2 is 20).
 */
module Particles {

  /** Life of a freshly spawned particle (1.0). */
  const FullLife: int := 100

  /** Life lost per frame (0.02). */
  const LifeStep: int := 2

  /** Added to the vertical velocity every frame (0.2). */
  const Gravity: int := 20

  /** Frames a particle lives: the frame that takes its life to 0 removes it. */
  const Lifetime: nat := 50

  datatype Point = Point(x: int, y: int)

  /**
   * What the burst draws at random or by trigonometry for one particle:
   * its velocity (cos and sin of its angle times a random speed) and size.
   */
  datatype Spray = Spray(vx: int, vy: int, size: int)

  datatype Particle = Particle(
    x: int, y: int,
    vx: int, vy: int,
    life: int, maxLife: int,
    color: string,
    size: int)

  /** A particle as the burst creates it: full life, at the hit point. */
  function Spawn(at: Point, color: string, k: Spray): Particle
  {
    Particle(at.x, at.y, k.vx, k.vy, FullLife, FullLife, color, k.size)
  }

  /** The `count` particles one burst appends, the i-th drawn from `spray(i)`. */
  function Burst(at: Point, color: string, count: nat, spray: nat -> Spray): (b: seq<Particle>)
    ensures |b| == count
    ensures forall i :: 0 <= i < |b| ==> b[i].life == FullLife && b[i].maxLife == FullLife
    ensures forall i :: 0 <= i < |b| ==> b[i].color == color && b[i].x == at.x && b[i].y == at.y
  {
    var b := seq(count, i requires 0 <= i < count => Spawn(at, color, spray(i)));
    assert forall i :: 0 <= i < count ==> b[i] == Spawn(at, color, spray(i));
    b
  }

  /** One frame of motion and decay of a single particle. */
  function Decay(p: Particle): Particle
  {
    p.(x := p.x + p.vx, y := p.y + p.vy, vy := p.vy + Gravity, life := p.life - LifeStep)
  }

  predicate Expires(p: Particle) { Decay(p).life <= 0 }

  /**
   * One frame of the particle list: every particle decays, and those whose
   * life is then at most 0 are dropped; the rest keep their order.
   */
  function Tick(s: seq<Particle>): (t: seq<Particle>)
    ensures |t| <= |s|
    ensures forall q <- t :: q.life > 0
  {
    if s == [] then []
    else (if Expires(s[0]) then [] else [Decay(s[0])]) + Tick(s[1..])
  }

  /** `n` consecutive frames. */
  function Frames(s: seq<Particle>, n: nat): seq<Particle>
    decreases n
  {
    if n == 0 then s else Frames(Tick(s), n - 1)
  }

  /** Every particle alive, with its life within (0, FullLife]. */
  predicate WellFormed(s: seq<Particle>)
  {
    forall p <- s :: 0 < p.life <= FullLife && p.maxLife == FullLife
  }

  predicate Increasing(idx: seq<nat>)
  {
    forall k, l :: 0 <= k < l < |idx| ==> idx[k] < idx[l]
  }

  function Shift(idx: seq<nat>): (r: seq<nat>)
    ensures |r| == |idx|
    ensures forall k :: 0 <= k < |idx| ==> r[k] == idx[k] + 1
  {
    seq(|idx|, k requires 0 <= k < |idx| => idx[k] + 1)
  }

  /**
   * `idx` lists, strictly increasing, the positions in `s` of the particles
   * that survive a frame, and `t` holds exactly those particles, decayed, in
   * that order.
   */
  predicate Enumerates(s: seq<Particle>, t: seq<Particle>, idx: seq<nat>)
  {
    && |idx| == |t|
    && Increasing(idx)
    && (forall k :: 0 <= k < |idx| ==> idx[k] < |s| && !Expires(s[idx[k]]) && t[k] == Decay(s[idx[k]]))
    && (forall i :: 0 <= i < |s| && !Expires(s[i]) ==> i in idx)
  }

  lemma EnumeratesSkip(s: seq<Particle>, t: seq<Particle>, rest: seq<nat>)
    requires s != [] && Expires(s[0]) && Enumerates(s[1..], t, rest)
    ensures Enumerates(s, t, Shift(rest))
  {
    var idx := Shift(rest);
    forall k | 0 <= k < |idx|
      ensures idx[k] < |s| && !Expires(s[idx[k]]) && t[k] == Decay(s[idx[k]])
    {
      assert s[idx[k]] == s[1..][rest[k]];
    }
    forall i | 0 <= i < |s| && !Expires(s[i])
      ensures i in idx
    {
      assert i > 0 && s[1..][i - 1] == s[i];
      var k :| 0 <= k < |rest| && rest[k] == i - 1;
      assert idx[k] == i;
    }
  }

  lemma KeepPositions(s: seq<Particle>, t: seq<Particle>, rest: seq<nat>)
    requires s != [] && !Expires(s[0]) && Enumerates(s[1..], t, rest)
    ensures var idx, u := [0] + Shift(rest), [Decay(s[0])] + t;
      forall k :: 0 <= k < |idx| ==> idx[k] < |s| && !Expires(s[idx[k]]) && u[k] == Decay(s[idx[k]])
  {
    var idx, u := [0] + Shift(rest), [Decay(s[0])] + t;
    forall k | 0 <= k < |idx|
      ensures idx[k] < |s| && !Expires(s[idx[k]]) && u[k] == Decay(s[idx[k]])
    {
      if k > 0 {
        assert idx[k] == rest[k - 1] + 1 && u[k] == t[k - 1];
        assert s[idx[k]] == s[1..][rest[k - 1]];
      }
    }
  }

  lemma KeepIncreasing(rest: seq<nat>)
    requires Increasing(rest)
    ensures Increasing([0] + Shift(rest))
  {
    var idx := [0] + Shift(rest);
    forall k, l | 0 <= k < l < |idx|
      ensures idx[k] < idx[l]
    {
      if k > 0 {
        assert idx[k] == rest[k - 1] + 1 && idx[l] == rest[l - 1] + 1;
      }
    }
  }

  lemma KeepCovers(s: seq<Particle>, t: seq<Particle>, rest: seq<nat>)
    requires s != [] && !Expires(s[0]) && Enumerates(s[1..], t, rest)
    ensures forall i :: 0 <= i < |s| && !Expires(s[i]) ==> i in [0] + Shift(rest)
  {
    var idx := [0] + Shift(rest);
    forall i | 0 <= i < |s| && !Expires(s[i])
      ensures i in idx
    {
      if i > 0 {
        assert s[1..][i - 1] == s[i];
        var k :| 0 <= k < |rest| && rest[k] == i - 1;
        assert idx[k + 1] == i;
      }
    }
  }

  lemma EnumeratesKeep(s: seq<Particle>, t: seq<Particle>, rest: seq<nat>)
    requires s != [] && !Expires(s[0]) && Enumerates(s[1..], t, rest)
    ensures Enumerates(s, [Decay(s[0])] + t, [0] + Shift(rest))
  {
    KeepPositions(s, t, rest);
    KeepIncreasing(rest);
    KeepCovers(s, t, rest);
  }

  /**
   * A frame keeps exactly the particles that do not expire, decayed, in
   * their original order: some strictly increasing list of positions
   * enumerates the survivors.
   */
  lemma {:induction false} TickIsOrderedFilter(s: seq<Particle>) returns (idx: seq<nat>)
    ensures Enumerates(s, Tick(s), idx)
  {
    if s == [] {
      idx := [];
    } else {
      var rest := TickIsOrderedFilter(s[1..]);
      if Expires(s[0]) {
        assert Tick(s) == Tick(s[1..]);
        EnumeratesSkip(s, Tick(s[1..]), rest);
        idx := Shift(rest);
      } else {
        assert Tick(s) == [Decay(s[0])] + Tick(s[1..]);
        EnumeratesKeep(s, Tick(s[1..]), rest);
        idx := [0] + Shift(rest);
      }
    }
  }

  /** A frame over a suffix of `s` handles its first particle, then the rest. */
  lemma TickSuffix(s: seq<Particle>, i: nat)
    requires i < |s|
    ensures Tick(s[i..]) == (if Expires(s[i]) then [] else [Decay(s[i])]) + Tick(s[i + 1..])
  {
    assert s[i..][1..] == s[i + 1..];
  }

  /** Splicing out, or replacing, the element between a prefix and a suffix. */
  lemma Splice(pre: seq<Particle>, x: Particle, y: Particle, rest: seq<Particle>)
    ensures var s := pre + [x] + rest;
      && s[|pre|] == x
      && s[..|pre|] + s[|pre| + 1..] == pre + rest
      && s[|pre| := y] == pre + [y] + rest
  {
    var s := pre + [x] + rest;
    assert s[..|pre|] == pre;
    assert s[|pre| + 1..] == rest;
  }

  /**
   * One step of a frame that walks the list from the back: with position `i`
   * next and everything after it already done, decaying position `i` and
   * removing it if it expired leaves positions `i` onwards done.
   */
  lemma BackwardStep(s: seq<Particle>, cur: seq<Particle>, i: nat)
    requires i < |s| && cur == s[..i + 1] + Tick(s[i + 1..])
    ensures i < |cur| && cur[i] == s[i]
    ensures Expires(s[i]) ==> cur[..i] + cur[i + 1..] == s[..i] + Tick(s[i..])
    ensures !Expires(s[i]) ==> cur[i := Decay(s[i])] == s[..i] + Tick(s[i..])
  {
    TickSuffix(s, i);
    assert s[..i + 1] == s[..i] + [s[i]];
    Splice(s[..i], s[i], Decay(s[i]), Tick(s[i + 1..]));
  }

  /** A frame keeps well-formed lists well-formed. */
  lemma {:induction false} TickWellFormed(s: seq<Particle>)
    requires WellFormed(s)
    ensures WellFormed(Tick(s))
  {
    if s != [] {
      TickWellFormed(s[1..]);
    }
  }

  /**
   * When every particle has life `l`, a frame leaves every survivor at
   * `l - LifeStep`, and keeps all of them or none.
   */
  lemma {:induction false} TickUniform(s: seq<Particle>, l: int)
    requires forall p <- s :: p.life == l
    ensures forall q <- Tick(s) :: q.life == l - LifeStep
    ensures |Tick(s)| == if l - LifeStep > 0 then |s| else 0
  {
    if s != [] {
      TickUniform(s[1..], l);
    }
  }

  /** After `n` frames a uniform list has lost `n` steps of life, and is empty once that reaches 0. */
  lemma {:induction false} FramesUniform(s: seq<Particle>, l: int, n: nat)
    requires forall p <- s :: p.life == l
    ensures forall q <- Frames(s, n) :: q.life == l - n * LifeStep
    ensures |Frames(s, n)| == if n == 0 || l - n * LifeStep > 0 then |s| else 0
    decreases n
  {
    if n > 0 {
      TickUniform(s, l);
      FramesUniform(Tick(s), l - LifeStep, n - 1);
    }
  }

  /** A burst survives 49 frames intact and is gone after the 50th. */
  lemma BurstLifetime(at: Point, color: string, count: nat, spray: nat -> Spray)
    ensures |Frames(Burst(at, color, count, spray), Lifetime - 1)| == count
    ensures Frames(Burst(at, color, count, spray), Lifetime) == []
  {
    var b := Burst(at, color, count, spray);
    FramesUniform(b, FullLife, Lifetime - 1);
    FramesUniform(b, FullLife, Lifetime);
  }
}

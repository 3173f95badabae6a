/**
 * The landing page's cursor trail: every mouse move updates the spotlight
 * position and, at most once per 20 ms, appends a particle at the pointer,
 * keeping the last fifteen older particles. Particle ids come from a counter.
 * The clock reading `now` is a parameter.
 */
module Cursor {

  datatype Particle = Particle(id: int, x: real, y: real)

  /** Milliseconds that must have passed, strictly, since the last spawn. */
  const SpawnGap: int := 20

  /** How many older particles a spawn keeps. */
  const Kept: nat := 15

  /** The trail's state: the particle list and the two refs. */
  datatype Trail = Trail(particles: seq<Particle>, particleCount: int, lastParticleTime: int)

  function InitialTrail(): Trail { Trail([], 0, 0) }

  /** `prev.slice(-15)`: the last fifteen entries, or all of them when there are fewer. */
  function LastKept(ps: seq<Particle>): (r: seq<Particle>)
    ensures |r| == if |ps| <= Kept then |ps| else Kept
    ensures r == ps[|ps| - |r|..]
  {
    if |ps| <= Kept then ps else ps[|ps| - Kept..]
  }

  /** One `mousemove` at `(x, y)` at time `now`. */
  function Move(t: Trail, x: real, y: real, now: int): (u: Trail)
    ensures now - t.lastParticleTime <= SpawnGap ==> u == t
    ensures now - t.lastParticleTime > SpawnGap ==>
      && u.particleCount == t.particleCount + 1
      && u.lastParticleTime == now
      && 1 <= |u.particles| <= Kept + 1
      && u.particles[|u.particles| - 1] == Particle(t.particleCount, x, y)
      && u.particles[..|u.particles| - 1] == LastKept(t.particles)
  {
    if now - t.lastParticleTime > SpawnGap then
      Trail(LastKept(t.particles) + [Particle(t.particleCount, x, y)], t.particleCount + 1, now)
    else t
  }

  /** Ids strictly increase along the list and are all below the counter; at most sixteen particles. */
  ghost predicate WellOrdered(t: Trail)
  {
    && |t.particles| <= Kept + 1
    && (forall i, j :: 0 <= i < j < |t.particles| ==> t.particles[i].id < t.particles[j].id)
    && (forall i :: 0 <= i < |t.particles| ==> t.particles[i].id < t.particleCount)
  }

  lemma MoveKeepsWellOrdered(t: Trail, x: real, y: real, now: int)
    requires WellOrdered(t)
    ensures WellOrdered(Move(t, x, y, now))
  {
    var u := Move(t, x, y, now);
    if now - t.lastParticleTime > SpawnGap {
      var kept := LastKept(t.particles);
      var off := |t.particles| - |kept|;
      assert forall i :: 0 <= i < |kept| ==> kept[i] == t.particles[off + i];
      assert u.particles == kept + [Particle(t.particleCount, x, y)];
    }
  }

  /** A mouse move at time `now`: the pointer position and the throttled spawn. */
  datatype MouseMove = MouseMove(x: real, y: real, now: int)

  function Moves(t: Trail, ms: seq<MouseMove>): Trail
    decreases |ms|
  {
    if ms == [] then t else Moves(Move(t, ms[0].x, ms[0].y, ms[0].now), ms[1..])
  }

  /** From mount on, any run of mouse moves leaves at most sixteen particles with strictly increasing ids. */
  lemma {:induction false} MovesKeepWellOrdered(t: Trail, ms: seq<MouseMove>)
    requires WellOrdered(t)
    ensures WellOrdered(Moves(t, ms))
    decreases |ms|
  {
    if ms != [] {
      MoveKeepsWellOrdered(t, ms[0].x, ms[0].y, ms[0].now);
      MovesKeepWellOrdered(Move(t, ms[0].x, ms[0].y, ms[0].now), ms[1..]);
    }
  }

  /** The component: motion values for the spotlight plus the trail. */
  class CursorSpotlight {
    var mouseX: real
    var mouseY: real
    var particles: seq<Particle>
    var particleCount: int
    var lastParticleTime: int

    function State(): Trail
      reads this
    {
      Trail(particles, particleCount, lastParticleTime)
    }

    constructor ()
      ensures mouseX == 0.0 && mouseY == 0.0
      ensures State() == InitialTrail() && WellOrdered(State())
    {
      mouseX, mouseY := 0.0, 0.0;
      particles := [];
      particleCount := 0;
      lastParticleTime := 0;
    }

    /** `moveCursor(e)` with `Date.now()` passed in as `now`. */
    method MoveCursor(clientX: real, clientY: real, now: int)
      modifies this
      ensures mouseX == clientX && mouseY == clientY
      ensures State() == Move(old(State()), clientX, clientY, now)
    {
      mouseX := clientX;
      mouseY := clientY;
      if now - lastParticleTime > SpawnGap {
        var newParticle := Particle(particleCount, clientX, clientY);
        particleCount := particleCount + 1;
        particles := LastKept(particles) + [newParticle];
        lastParticleTime := now;
      }
    }
  }
}

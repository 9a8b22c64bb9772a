/**
 * The floating-particle background (src/components/ui/MorphicBackground.tsx).
 * Every 300 ms a particle is spawned below the viewport unless the window is
 * blurred; every animation frame each live particle moves up by its own
 * friction and is retired once it is more than its own height above the top.
 * Positions and frictions are JavaScript doubles, modelled as exact reals.
 */
module MorphicBackground {

  /** The particle's height in pixels (`dimensions.height`). */
  const Height: real := 20.0

  /** How far below the viewport's height a particle is spawned. */
  const SpawnOffset: real := 100.0

  /** The rotation sign drawn at construction: `'+'` or `'-'`. */
  datatype RotationDirection = Plus | Minus

  /** Distance covered, and rotation accumulated, after `moves` calls of `move()`. */
  function Travelled(friction: real, moves: nat): (d: real)
    ensures friction >= 0.0 ==> d >= 0.0
    ensures friction > 0.0 && moves > 0 ==> d >= friction
  {
    if moves == 0 then 0.0 else Travelled(friction, moves - 1) + friction
  }

  /** Vertical position of a particle spawned at `y` after `moves` moves. */
  function PositionAfter(y: real, friction: real, moves: nat): real
  {
    y - Travelled(friction, moves)
  }

  /** Each move covers exactly `friction`, so `k` moves cover `k * friction`. */
  lemma {:induction false} TravelledClosedForm(friction: real, moves: nat)
    ensures Travelled(friction, moves) == (moves as real) * friction
  {
    if moves > 0 {
      TravelledClosedForm(friction, moves - 1);
    }
  }

  /** With a positive friction the position strictly decreases from move to move. */
  lemma {:induction false} PositionStrictlyDecreases(y: real, friction: real, j: nat, k: nat)
    requires friction > 0.0 && j < k
    ensures PositionAfter(y, friction, k) < PositionAfter(y, friction, j)
  {
    if j < k - 1 {
      PositionStrictlyDecreases(y, friction, j, k - 1);
    }
  }

  /** A larger friction never covers less distance. */
  lemma {:induction false} TravelledMonotone(f: real, g: real, moves: nat)
    requires f <= g
    ensures Travelled(f, moves) <= Travelled(g, moves)
  {
    if moves > 0 {
      TravelledMonotone(f, g, moves - 1);
    }
  }

  /**
   * A particle spawned at `y` with friction at least 0.5 is below `-Height`
   * (and so retired) after any number of moves `k >= 2 * (y + Height) + 1`.
   */
  lemma RetiresWithin(y: real, friction: real, k: nat)
    requires friction >= 0.5
    requires (k as real) >= 2.0 * (y + Height) + 1.0
    ensures PositionAfter(y, friction, k) < -Height
  {
    TravelledMonotone(0.5, friction, k);
    TravelledClosedForm(0.5, k);
  }

  class Particle {
    const spawnY: real
    const friction: real
    const rotationDirection: RotationDirection
    var position: real
    var rotationValue: real
    /** Whether the particle's element is still in the container; `destroy()` removes it. */
    var attached: bool
    /** How many times `move()` has run. */
    ghost var moves: nat

    /** Position and rotation have both moved by `Travelled(friction, moves)`, so `position == PositionAfter(spawnY, friction, moves)`. */
    ghost predicate Valid()
      reads this
    {
      position == spawnY - rotationValue && rotationValue == Travelled(friction, moves)
    }

    /** The rotation shown: the accumulated value, signed by the direction fixed at construction. */
    function Rotation(): (r: real)
      reads this
      ensures rotationDirection == Plus ==> r == rotationValue
      ensures rotationDirection == Minus ==> r == -rotationValue
    {
      if rotationDirection == Plus then rotationValue else -rotationValue
    }

    /** A new particle starts at its spawn height with no rotation; the random draws arrive as arguments. */
    constructor (y: real, friction: real, direction: RotationDirection)
      ensures Valid() && attached && moves == 0
      ensures spawnY == y && position == y && rotationValue == 0.0
      ensures this.friction == friction && rotationDirection == direction
    {
      spawnY := y;
      this.friction := friction;
      rotationDirection := direction;
      position := y;
      rotationValue := 0.0;
      attached := true;
      moves := 0;
    }

    /** One animation step; the result says whether the particle is still live. */
    method Move() returns (live: bool)
      requires attached
      modifies this
      ensures old(Valid()) ==> Valid()
      ensures moves == old(moves) + 1
      ensures position == old(position) - friction
      ensures rotationValue == old(rotationValue) + friction
      ensures live <==> position >= -Height
      ensures attached == live
    {
      position := position - friction;
      rotationValue := rotationValue + friction;
      moves := moves + 1;
      if position < -Height {
        Destroy();
        return false;
      }
      return true;
    }

    /** Removes the particle's element from the container. */
    method Destroy()
      modifies this
      ensures !attached
      ensures position == old(position) && rotationValue == old(rotationValue) && moves == old(moves)
    {
      attached := false;
    }
  }

  /** The particles of `ps` whose element is still attached, in their original order. */
  ghost function Survivors(ps: seq<Particle>): (r: seq<Particle>)
    reads ps
    ensures |r| <= |ps|
  {
    if ps == [] then []
    else
      var last := ps[|ps| - 1];
      Survivors(ps[..|ps| - 1]) + (if last.attached then [last] else [])
  }

  /** A particle on the field: attached, on its trajectory, with a friction drawn from `[0.5, 1.0)`. */
  ghost predicate Live(p: Particle)
    reads p
  {
    p.attached && p.Valid() && 0.5 <= p.friction < 1.0
  }

  class ParticleField {
    /** `particlesRef.current`. */
    var particles: seq<Particle>
    /** `isPausedRef.current`: set on window blur, cleared on focus. */
    var paused: bool

    ghost predicate Valid()
      reads this, particles
    {
      (forall i, j :: 0 <= i < j < |particles| ==> particles[i] != particles[j]) &&
      (forall i :: 0 <= i < |particles| ==> Live(particles[i]))
    }

    constructor ()
      ensures Valid() && particles == [] && !paused
    {
      particles := [];
      paused := false;
    }

    method Blur()
      modifies this
      ensures paused && particles == old(particles)
    {
      paused := true;
    }

    method Focus()
      modifies this
      ensures !paused && particles == old(particles)
    {
      paused := false;
    }

    /**
     * One firing of the 300 ms spawn interval. `draw` is the value of
     * `Math.random()` that sets the friction to `0.5 + draw * 0.5`.
     */
    method SpawnTick(innerHeight: real, draw: real, direction: RotationDirection)
      requires Valid() && 0.0 <= draw < 1.0
      modifies this
      ensures Valid() && paused == old(paused)
      ensures old(paused) ==> particles == old(particles)
      ensures !old(paused) ==>
        |particles| == |old(particles)| + 1 && particles[..|old(particles)|] == old(particles) &&
        fresh(particles[|old(particles)|]) &&
        particles[|old(particles)|].position == innerHeight + SpawnOffset &&
        particles[|old(particles)|].friction == 0.5 + draw * 0.5
      ensures !old(paused) ==>
        var q := particles[|old(particles)|];
        q.spawnY == innerHeight + SpawnOffset && q.rotationValue == 0.0 && q.moves == 0 &&
        q.rotationDirection == direction && q.attached
    {
      if !paused {
        var p := new Particle(innerHeight + SpawnOffset, 0.5 + draw * 0.5, direction);
        particles := particles + [p];
      }
    }

    /** One animation frame: `particles = particles.filter(p => p.move())`. */
    method Update()
      requires Valid()
      modifies this, particles
      ensures Valid() && paused == old(paused)
      ensures particles == Survivors(old(particles))
      ensures forall k :: 0 <= k < |old(particles)| ==> MovedOnce(old(particles)[k])
    {
      var kept, live := FilterMoving(particles);
      SelectIsSurvivors(particles, live);
      SurvivorsDistinct(particles);
      forall a | 0 <= a < |kept|
        ensures Live(kept[a])
      {
        var q := kept[a];
        SurvivorsMembers(particles, q);
        var k :| 0 <= k < |particles| && particles[k] == q;
        assert old(Live(q));
        MoveKeepsValid(q);
      }
      particles := kept;
    }
  }

  /** `ps.filter(p => p.move())`: moves each particle once, in order, and keeps those that report themselves live. */
  method FilterMoving(ps: seq<Particle>) returns (kept: seq<Particle>, ghost live: seq<bool>)
    requires forall i, j :: 0 <= i < j < |ps| ==> ps[i] != ps[j]
    requires forall k :: 0 <= k < |ps| ==> ps[k].attached
    modifies ps
    ensures |live| == |ps| && kept == Select(ps, live)
    ensures forall k :: 0 <= k < |ps| ==> MovedOnce(ps[k]) && live[k] == ps[k].attached
  {
    kept, live := [], [];
    var i := 0;
    while i < |ps|
      invariant 0 <= i <= |ps| && |live| == i
      invariant forall k :: 0 <= k < i ==> MovedOnce(ps[k]) && live[k] == ps[k].attached
      invariant forall k :: i <= k < |ps| ==> NotYetMoved(ps[k])
      invariant kept == Select(ps[..i], live)
    {
      var p := ps[i];
      assert forall k :: 0 <= k < |ps| && k != i ==> ps[k] != p;
      var alive := p.Move();
      assert ps[..i + 1][..i] == ps[..i];
      if alive {
        kept := kept + [p];
      }
      live := live + [alive];
      i := i + 1;
    }
    assert ps[..i] == ps;
  }

  /** The elements of `xs` whose flag in `keep` is set, in order. */
  function Select<T>(xs: seq<T>, keep: seq<bool>): (r: seq<T>)
    requires |xs| == |keep|
    ensures |r| <= |xs|
  {
    if xs == [] then []
    else Select(xs[..|xs| - 1], keep[..|keep| - 1]) + (if keep[|keep| - 1] then [xs[|xs| - 1]] else [])
  }

  /** Selecting by the particles' own attachment flags is `Survivors`. */
  lemma {:induction false} SelectIsSurvivors(ps: seq<Particle>, live: seq<bool>)
    requires |live| == |ps| && forall k :: 0 <= k < |ps| ==> live[k] == ps[k].attached
    ensures Select(ps, live) == Survivors(ps)
  {
    if ps != [] {
      SelectIsSurvivors(ps[..|ps| - 1], live[..|live| - 1]);
    }
  }

  /** Since the start of the enclosing method, `p` has made exactly one `move()`. */
  twostate predicate MovedOnce(p: Particle)
    reads p
  {
    p.position == old(p.position) - p.friction &&
    p.rotationValue == old(p.rotationValue) + p.friction &&
    p.moves == old(p.moves) + 1 &&
    (p.attached <==> p.position >= -Height)
  }

  /** One move keeps position and rotation on the particle's trajectory. */
  twostate lemma MoveKeepsValid(p: Particle)
    requires old(p.Valid()) && MovedOnce(p)
    ensures p.Valid()
  {
  }

  /** Since the start of the enclosing method, `p` has not moved and is still live. */
  twostate predicate NotYetMoved(p: Particle)
    reads p
  {
    p.position == old(p.position) &&
    p.rotationValue == old(p.rotationValue) &&
    p.moves == old(p.moves) &&
    p.attached
  }

  /** A particle survives a frame exactly when it was in the list and is still attached. */
  lemma {:induction false} SurvivorsMembers(ps: seq<Particle>, q: Particle)
    ensures q in Survivors(ps) <==> q in ps && q.attached
  {
    if ps != [] {
      var init := ps[..|ps| - 1];
      SurvivorsMembers(init, q);
      assert ps == init + [ps[|ps| - 1]];
    }
  }

  /** Filtering a list of distinct particles leaves them distinct. */
  lemma {:induction false} SurvivorsDistinct(ps: seq<Particle>)
    requires forall i, j :: 0 <= i < j < |ps| ==> ps[i] != ps[j]
    ensures var r := Survivors(ps); forall i, j :: 0 <= i < j < |r| ==> r[i] != r[j]
  {
    if ps != [] {
      var init, last := ps[..|ps| - 1], ps[|ps| - 1];
      SurvivorsDistinct(init);
      SurvivorsMembers(init, last);
      var r0 := Survivors(init);
      assert last !in r0;
      assert Survivors(ps) == r0 + (if last.attached then [last] else []);
    }
  }
}

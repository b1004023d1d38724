/** What one call of update does to the particle buffers, stated on values:
    each substep predicts every free particle under gravity (with a ground
    clamp), projects every distance constraint once in buffer order, then
    rebuilds every free particle's velocity from its displacement. */
module Dynamics {
  import opened Geometry
  import opened Grid

  datatype Option<T> = None | Some(value: T)

  /** The solver parameters update receives. `iterations` is carried but
      never read by the solver. */
  datatype SolverParams = SolverParams(substeps: int, iterations: int, gravity: Vec3, dt: real)

  /** The particle buffers update changes, one point per particle. */
  datatype Cloth = Cloth(pos: seq<Vec3>, prevPos: seq<Vec3>, vel: seq<Vec3>)

  /** What update only reads: inverse masses, the live particle count, the
      live constraints and their rest lengths. */
  datatype Body = Body(invMass: seq<real>, numParticles: nat, constraints: seq<DistanceConstraint>, restLengths: seq<real>)

  /** One particle's slots of the three buffers. */
  datatype Particle = Particle(pos: Vec3, prevPos: Vec3, vel: Vec3)

  /** The body fits a position buffer: one point per particle, one rest
      length per constraint, every constraint endpoint a live particle. */
  predicate Fits(pos: seq<Vec3>, b: Body)
  {
    && |pos| == |b.invMass|
    && b.numParticles <= |b.invMass|
    && |b.restLengths| == |b.constraints|
    && forall k :: 0 <= k < |b.constraints| ==>
         b.constraints[k].p1 < b.numParticles && b.constraints[k].p2 < b.numParticles
  }

  predicate Shaped(c: Cloth, b: Body)
  {
    Fits(c.pos, b) && |c.prevPos| == |c.pos| && |c.vel| == |c.pos|
  }

  function ParticleAt(c: Cloth, p: nat): Particle
    requires p < |c.pos| && p < |c.prevPos| && p < |c.vel|
  {
    Particle(c.pos[p], c.prevPos[p], c.vel[p])
  }

  function SetParticle(c: Cloth, p: nat, q: Particle): (r: Cloth)
    requires p < |c.pos| && p < |c.prevPos| && p < |c.vel|
    ensures |r.pos| == |c.pos| && |r.prevPos| == |c.prevPos| && |r.vel| == |c.vel|
    ensures ParticleAt(r, p) == q
    ensures forall o: nat :: o < |c.pos| && o < |c.prevPos| && o < |c.vel| && o != p ==>
      ParticleAt(r, o) == ParticleAt(c, o)
  {
    Cloth(c.pos[p := q.pos], c.prevPos[p := q.prevPos], c.vel[p := q.vel])
  }

  /** k applications of an indexed step that can fail, the i-th application
      getting index i; a failure is final. */
  function Fold<S>(step: (S, nat) -> Option<S>, s: S, k: nat): Option<S>
  {
    if k == 0 then Some(s)
    else
      match Fold(step, s, k - 1)
      case None => None
      case Some(t) => step(t, k - 1)
  }

  /** Getting through k steps means getting through every shorter prefix. */
  lemma {:induction false} FoldPrefix<S>(step: (S, nat) -> Option<S>, s: S, j: nat, k: nat)
    requires j <= k && Fold(step, s, k).Some?
    ensures Fold(step, s, j).Some?
    decreases k
  {
    if j < k {
      FoldPrefix(step, s, j, k - 1);
    }
  }

  /** Step k + 1 of a fold that gets that far is the step applied to the
      state after k steps. */
  lemma FoldNext<S>(step: (S, nat) -> Option<S>, s: S, k: nat)
    requires Fold(step, s, k + 1).Some?
    ensures Fold(step, s, k).Some? && Fold(step, s, k + 1) == step(Fold(step, s, k).value, k)
  {
  }

  /** A property every successful step preserves holds after k steps. */
  lemma {:induction false} FoldKeeps<S>(step: (S, nat) -> Option<S>, inv: S -> bool, s: S, k: nat)
    requires inv(s) && Fold(step, s, k).Some?
    requires forall t, i: nat :: inv(t) && step(t, i).Some? ==> inv(step(t, i).value)
    ensures inv(Fold(step, s, k).value)
  {
    if k > 0 {
      FoldPrefix(step, s, k - 1, k);
      FoldKeeps(step, inv, s, k - 1);
    }
  }

  // ---------------------------------------------------------------------------
  // 1. Integrate (predict)
  // ---------------------------------------------------------------------------

  /** One free particle's prediction: gravity changes its velocity, the old
      position is remembered, the position moves by the new velocity, and a
      particle that would end below the ground y = 0 is put on the ground
      with no vertical velocity. */
  function Predicted(q: Particle, g: Vec3, sdt: real): Particle
  {
    var v := Vec3(q.vel.x + g.x * sdt, q.vel.y + g.y * sdt, q.vel.z + g.z * sdt);
    var x := Vec3(q.pos.x + v.x * sdt, q.pos.y + v.y * sdt, q.pos.z + v.z * sdt);
    if x.y < 0.0 then Particle(Vec3(x.x, 0.0, x.z), q.pos, Vec3(v.x, 0.0, v.z))
    else Particle(x, q.pos, v)
  }

  /** Predicted is semi-implicit Euler with a ground clamp. */
  lemma PredictedMoves(q: Particle, g: Vec3, sdt: real)
    ensures var r := Predicted(q, g, sdt);
      && r.prevPos == q.pos
      && r.vel.x == q.vel.x + g.x * sdt && r.vel.z == q.vel.z + g.z * sdt
      && r.pos.x == q.pos.x + r.vel.x * sdt && r.pos.z == q.pos.z + r.vel.z * sdt
      && 0.0 <= r.pos.y
      && var y := q.pos.y + (q.vel.y + g.y * sdt) * sdt;
         if y < 0.0 then r.pos.y == 0.0 && r.vel.y == 0.0
         else r.pos.y == q.pos.y + r.vel.y * sdt && r.vel.y == q.vel.y + g.y * sdt
  {
  }

  /** A loop over the live particles that replaces every free one (inverse
      mass not 0) by f of itself, in index order, after its first i
      particles. */
  function MapFree(c: Cloth, b: Body, f: Particle -> Particle, i: nat): (r: Cloth)
    requires Shaped(c, b) && i <= b.numParticles
    ensures Shaped(r, b)
  {
    if i == 0 then c
    else
      var r := MapFree(c, b, f, i - 1);
      if b.invMass[i - 1] == 0.0 then r
      else SetParticle(r, i - 1, f(ParticleAt(r, i - 1)))
  }

  /** Each particle is touched at most once by MapFree: a free one among the
      first i is f of what it was, every other one is unchanged. */
  lemma {:induction false} MapFreeAt(c: Cloth, b: Body, f: Particle -> Particle, i: nat, p: nat)
    requires Shaped(c, b) && i <= b.numParticles && p < |b.invMass|
    ensures ParticleAt(MapFree(c, b, f, i), p) ==
      if p < i && b.invMass[p] != 0.0 then f(ParticleAt(c, p)) else ParticleAt(c, p)
  {
    if i > 0 {
      MapFreeAt(c, b, f, i - 1, p);
      if p == i - 1 {
        MapFreeAt(c, b, f, i - 1, i - 1);
      }
    }
  }

  /** Predicted as a map over particles. */
  function PredictOf(g: Vec3, sdt: real): Particle -> Particle
  {
    (q: Particle) => Predicted(q, g, sdt)
  }

  /** The predict loop after its first i particles. */
  function PredictUpTo(c: Cloth, b: Body, g: Vec3, sdt: real, i: nat): (r: Cloth)
    requires Shaped(c, b) && i <= b.numParticles
    ensures Shaped(r, b)
  {
    MapFree(c, b, PredictOf(g, sdt), i)
  }

  function Predict(c: Cloth, b: Body, g: Vec3, sdt: real): (r: Cloth)
    requires Shaped(c, b)
    ensures Shaped(r, b)
  {
    PredictUpTo(c, b, g, sdt, b.numParticles)
  }

  /** The predict loop moves every free live particle as Predicted says,
      independently of the others, and leaves every other particle alone. */
  lemma PredictAt(c: Cloth, b: Body, g: Vec3, sdt: real, p: nat)
    requires Shaped(c, b) && p < |b.invMass|
    ensures ParticleAt(Predict(c, b, g, sdt), p) ==
      if p < b.numParticles && b.invMass[p] != 0.0 then Predicted(ParticleAt(c, p), g, sdt) else ParticleAt(c, p)
  {
    MapFreeAt(c, b, PredictOf(g, sdt), b.numParticles, p);
  }

  /** After the predict loop every free live particle is on or above the
      ground, and its previous position is where it started; one the clamp
      caught (it would have ended below the ground) is on the ground with no
      vertical velocity. */
  lemma PredictAboveGround(c: Cloth, b: Body, g: Vec3, sdt: real)
    requires Shaped(c, b)
    ensures forall p: nat :: p < b.numParticles && b.invMass[p] != 0.0 ==>
      0.0 <= Predict(c, b, g, sdt).pos[p].y && Predict(c, b, g, sdt).prevPos[p] == c.pos[p]
    ensures forall p: nat ::
      (p < b.numParticles && b.invMass[p] != 0.0 && c.pos[p].y + (c.vel[p].y + g.y * sdt) * sdt < 0.0) ==>
      Predict(c, b, g, sdt).pos[p].y == 0.0 && Predict(c, b, g, sdt).vel[p].y == 0.0
  {
    forall p: nat | p < b.numParticles && b.invMass[p] != 0.0
      ensures 0.0 <= Predict(c, b, g, sdt).pos[p].y && Predict(c, b, g, sdt).prevPos[p] == c.pos[p]
      ensures c.pos[p].y + (c.vel[p].y + g.y * sdt) * sdt < 0.0 ==>
        Predict(c, b, g, sdt).pos[p].y == 0.0 && Predict(c, b, g, sdt).vel[p].y == 0.0
    {
      PredictAt(c, b, g, sdt, p);
      PredictedMoves(ParticleAt(c, p), g, sdt);
    }
  }

  // ---------------------------------------------------------------------------
  // 2. Solve distance constraints (one pass in buffer order)
  // ---------------------------------------------------------------------------

  /** The correction of one constraint between endpoints a and b: the unit
      vector (a - b) / dist scaled by (dist - restLength) / wSum. */
  function Gradient(a: Vec3, b: Vec3, dist: real, restLength: real, wSum: real): Vec3
    requires dist != 0.0 && wSum != 0.0
  {
    var correction := (dist - restLength) / wSum;
    Vec3((a.x - b.x) / dist * correction, (a.y - b.y) / dist * correction, (a.z - b.z) / dist * correction)
  }

  /** Where p1 goes: moved by -g * w when its inverse mass w is positive,
      left where it is otherwise. */
  function Pulled(a: Vec3, g: Vec3, w: real): Vec3
  {
    if w > 0.0 then Vec3(a.x - g.x * w, a.y - g.y * w, a.z - g.z * w) else a
  }

  /** Where p2 goes: moved by g * w when its inverse mass w is positive,
      left where it is otherwise. */
  function Pushed(b: Vec3, g: Vec3, w: real): Vec3
  {
    if w > 0.0 then Vec3(b.x + g.x * w, b.y + g.y * w, b.z + g.z * w) else b
  }

  /** The two writes of one constraint, in order: p1 is pulled against g
      when w1 > 0, then p2 (as it is after the first write) is pushed along
      g when w2 > 0. */
  function Correct(pos: seq<Vec3>, p1: nat, p2: nat, w1: real, w2: real, g: Vec3): (r: seq<Vec3>)
    requires p1 < |pos| && p2 < |pos|
    ensures |r| == |pos|
    ensures forall q :: 0 <= q < |pos| && !(q == p1 && w1 > 0.0) && !(q == p2 && w2 > 0.0) ==> r[q] == pos[q]
  {
    var pos1 := if w1 > 0.0 then pos[p1 := Pulled(pos[p1], g, w1)] else pos;
    if w2 > 0.0 then pos1[p2 := Pushed(pos1[p2], g, w2)] else pos1
  }

  /** For two distinct endpoints, the second write does not see the first. */
  lemma CorrectEndpoints(pos: seq<Vec3>, p1: nat, p2: nat, w1: real, w2: real, g: Vec3)
    requires p1 < |pos| && p2 < |pos| && p1 != p2
    ensures Correct(pos, p1, p2, w1, w2, g)[p1] == Pulled(pos[p1], g, w1)
    ensures Correct(pos, p1, p2, w1, w2, g)[p2] == Pushed(pos[p2], g, w2)
  {
  }

  /** Projects one constraint onto the positions: the endpoints move along the
      line joining them, each in proportion to its inverse mass, and only an
      endpoint with positive inverse mass is written. A constraint whose
      endpoints are both pinned is skipped. None when a write would use a
      correction divided by a zero distance; with a zero distance and no
      positive inverse mass nothing is written. */
  function ProjectOne(pos: seq<Vec3>, invMass: seq<real>, link: DistanceConstraint, restLength: real, sqrt: real -> real): (r: Option<seq<Vec3>>)
    requires link.p1 < |pos| && link.p2 < |pos|
    requires link.p1 < |invMass| && link.p2 < |invMass|
    ensures r.None? <==>
      && invMass[link.p1] + invMass[link.p2] != 0.0
      && (invMass[link.p1] > 0.0 || invMass[link.p2] > 0.0)
      && Distance(sqrt, pos[link.p1], pos[link.p2]) == 0.0
    ensures invMass[link.p1] + invMass[link.p2] == 0.0 ==> r == Some(pos)
    ensures r.Some? ==> |r.value| == |pos|
    ensures r.Some? ==> forall q ::
      (0 <= q < |pos| && !(q == link.p1 && invMass[link.p1] > 0.0) && !(q == link.p2 && invMass[link.p2] > 0.0)) ==>
      r.value[q] == pos[q]
  {
    var w1 := invMass[link.p1];
    var w2 := invMass[link.p2];
    var wSum := w1 + w2;
    if wSum == 0.0 then Some(pos)
    else
      var a := pos[link.p1];
      var b := pos[link.p2];
      var dist := Distance(sqrt, a, b);
      if dist == 0.0 then (if w1 > 0.0 || w2 > 0.0 then None else Some(pos))
      else Some(Correct(pos, link.p1, link.p2, w1, w2, Gradient(a, b, dist, restLength, wSum)))
  }

  /** Where ProjectOne puts the two endpoints of a constraint between two
      distinct particles: p1 is pulled against the gradient by w1 and p2
      pushed along it by w2. */
  lemma ProjectOneEndpoints(pos: seq<Vec3>, invMass: seq<real>, link: DistanceConstraint, restLength: real, sqrt: real -> real)
    requires link.p1 < |pos| && link.p2 < |pos|
    requires link.p1 < |invMass| && link.p2 < |invMass| && link.p1 != link.p2
    requires invMass[link.p1] + invMass[link.p2] != 0.0 && Distance(sqrt, pos[link.p1], pos[link.p2]) != 0.0
    ensures ProjectOne(pos, invMass, link, restLength, sqrt).Some?
    ensures var a := pos[link.p1];
      var b := pos[link.p2];
      var grad := Gradient(a, b, Distance(sqrt, a, b), restLength, invMass[link.p1] + invMass[link.p2]);
      var r := ProjectOne(pos, invMass, link, restLength, sqrt).value;
      r[link.p1] == Pulled(a, grad, invMass[link.p1]) && r[link.p2] == Pushed(b, grad, invMass[link.p2])
  {
    var a := pos[link.p1];
    var b := pos[link.p2];
    CorrectEndpoints(pos, link.p1, link.p2, invMass[link.p1], invMass[link.p2],
      Gradient(a, b, Distance(sqrt, a, b), restLength, invMass[link.p1] + invMass[link.p2]));
  }

  /** a' and b' are a and b pulled together or pushed apart along the line
      joining them: their separation is s times what it was, and the moves
      weighted by the other endpoint's inverse mass cancel. */
  predicate Restored(a: Vec3, b: Vec3, a': Vec3, b': Vec3, w1: real, w2: real, s: real)
  {
    && AxisRestored(a.x, b.x, a'.x, b'.x, w1, w2, s)
    && AxisRestored(a.y, b.y, a'.y, b'.y, w1, w2, s)
    && AxisRestored(a.z, b.z, a'.z, b'.z, w1, w2, s)
  }

  /** Restored along one axis. */
  predicate AxisRestored(x1: real, x2: real, x1': real, x2': real, w1: real, w2: real, s: real)
  {
    x1' - x2' == (x1 - x2) * s && w2 * (x1' - x1) + w1 * (x2' - x2) == 0.0
  }

  /** The correction of a constraint of length dist between a and b, with
      non-negative inverse masses not both zero, leaves them restLength / dist
      times as far apart and keeps their weighted centre. */
  lemma CorrectionRestores(a: Vec3, b: Vec3, w1: real, w2: real, dist: real, restLength: real)
    requires 0.0 <= w1 && 0.0 <= w2 && w1 + w2 != 0.0 && dist != 0.0
    ensures var g := Gradient(a, b, dist, restLength, w1 + w2);
      Restored(a, b, Pulled(a, g, w1), Pushed(b, g, w2), w1, w2, restLength / dist)
  {
    var g := Gradient(a, b, dist, restLength, w1 + w2);
    var a' := Pulled(a, g, w1);
    var b' := Pushed(b, g, w2);
    MovedBy(a, g, w1);
    MovedBy(b, g, w2);
    ScaledComponent(a.x, b.x, a'.x, b'.x, g.x, dist, restLength, w1, w2);
    ScaledComponent(a.y, b.y, a'.y, b'.y, g.y, dist, restLength, w1, w2);
    ScaledComponent(a.z, b.z, a'.z, b'.z, g.z, dist, restLength, w1, w2);
  }

  /** With a non-negative weight the guard of Pulled and Pushed is moot: a
      zero weight moves by zero. */
  lemma MovedBy(a: Vec3, g: Vec3, w: real)
    requires 0.0 <= w
    ensures Pulled(a, g, w).x == a.x - g.x * w && Pulled(a, g, w).y == a.y - g.y * w && Pulled(a, g, w).z == a.z - g.z * w
    ensures Pushed(a, g, w).x == a.x + g.x * w && Pushed(a, g, w).y == a.y + g.y * w && Pushed(a, g, w).z == a.z + g.z * w
  {
    ZeroWeight(g.x, w);
    ZeroWeight(g.y, w);
    ZeroWeight(g.z, w);
  }

  /** Projecting a constraint between two distinct particles with
      non-negative inverse masses, not both zero, scales their separation by
      restLength / dist, and it moves them so that w2 * (move of p1) +
      w1 * (move of p2) is zero: the mass-weighted centre stays put. */
  lemma ProjectOneRestores(pos: seq<Vec3>, invMass: seq<real>, link: DistanceConstraint, restLength: real, sqrt: real -> real)
    requires link.p1 < |pos| && link.p2 < |pos|
    requires link.p1 < |invMass| && link.p2 < |invMass| && link.p1 != link.p2
    requires 0.0 <= invMass[link.p1] && 0.0 <= invMass[link.p2] && invMass[link.p1] + invMass[link.p2] != 0.0
    requires ProjectOne(pos, invMass, link, restLength, sqrt).Some?
    ensures var r := ProjectOne(pos, invMass, link, restLength, sqrt).value;
      Restored(pos[link.p1], pos[link.p2], r[link.p1], r[link.p2], invMass[link.p1], invMass[link.p2],
        restLength / Distance(sqrt, pos[link.p1], pos[link.p2]))
  {
    ProjectOneEndpoints(pos, invMass, link, restLength, sqrt);
    CorrectionRestores(pos[link.p1], pos[link.p2], invMass[link.p1], invMass[link.p2],
      Distance(sqrt, pos[link.p1], pos[link.p2]), restLength);
  }

  lemma ZeroWeight(x: real, w: real)
    ensures w == 0.0 ==> x * w == 0.0
  {
  }

  /** One axis of CorrectionRestores: with grad = (x1 - x2) / dist *
      correction, the moved endpoints are restLength / dist times as far
      apart, and their weighted moves cancel. */
  lemma ScaledComponent(x1: real, x2: real, x1': real, x2': real, grad: real, dist: real, restLength: real, w1: real, w2: real)
    requires dist != 0.0 && w1 + w2 != 0.0
    requires grad == (x1 - x2) / dist * ((dist - restLength) / (w1 + w2))
    requires x1' == x1 - grad * w1 && x2' == x2 + grad * w2
    ensures AxisRestored(x1, x2, x1', x2', w1, w2, restLength / dist)
  {
    var d := x1 - x2;
    var c := (dist - restLength) / (w1 + w2);
    assert grad * w1 + grad * w2 == grad * (w1 + w2);
    assert c * (w1 + w2) == dist - restLength;
    assert grad * (w1 + w2) == d / dist * (dist - restLength);
    assert d / dist * (dist - restLength) == d - d * (restLength / dist);
  }

  /** Constraint k of the body as a step on any position buffer; a buffer
      the body does not fit, or an index past the last constraint, fails. */
  function ProjectStep(b: Body, sqrt: real -> real): (seq<Vec3>, nat) -> Option<seq<Vec3>>
  {
    (p: seq<Vec3>, k: nat) =>
      if Fits(p, b) && k < |b.constraints| then ProjectOne(p, b.invMass, b.constraints[k], b.restLengths[k], sqrt)
      else None
  }

  /** The constraint steps keep the body fitting and leave the pinned
      particles, and those beyond the live count, where they were. */
  lemma ProjectKeeps(pos: seq<Vec3>, b: Body, sqrt: real -> real, k: nat)
    requires Fits(pos, b) && Fold(ProjectStep(b, sqrt), pos, k).Some?
    ensures Fits(Fold(ProjectStep(b, sqrt), pos, k).value, b)
    ensures forall q :: 0 <= q < |pos| && (q >= b.numParticles || b.invMass[q] <= 0.0) ==>
      Fold(ProjectStep(b, sqrt), pos, k).value[q] == pos[q]
  {
    var step := ProjectStep(b, sqrt);
    var inv := (t: seq<Vec3>) => Fits(t, b) &&
      forall q :: 0 <= q < |pos| && (q >= b.numParticles || b.invMass[q] <= 0.0) ==> t[q] == pos[q];
    forall t, i: nat | inv(t) && step(t, i).Some?
      ensures inv(step(t, i).value)
    {
      var l := b.constraints[i];
      assert l.p1 < |t| && l.p2 < |t|;
    }
    FoldKeeps(step, inv, pos, k);
  }

  /** The constraint loop after its first k constraints. */
  function ProjectUpTo(pos: seq<Vec3>, b: Body, sqrt: real -> real, k: nat): (r: Option<seq<Vec3>>)
    requires Fits(pos, b)
    ensures r.Some? ==> Fits(r.value, b)
    ensures r.Some? ==> forall q :: 0 <= q < |pos| && (q >= b.numParticles || b.invMass[q] <= 0.0) ==>
      r.value[q] == pos[q]
  {
    if Fold(ProjectStep(b, sqrt), pos, k).Some? then
      ProjectKeeps(pos, b, sqrt, k);
      Fold(ProjectStep(b, sqrt), pos, k)
    else None
  }

  function Project(pos: seq<Vec3>, b: Body, sqrt: real -> real): (r: Option<seq<Vec3>>)
    requires Fits(pos, b)
    ensures r.Some? ==> Fits(r.value, b)
    ensures r.Some? ==> forall q :: 0 <= q < |pos| && (q >= b.numParticles || b.invMass[q] <= 0.0) ==>
      r.value[q] == pos[q]
  {
    ProjectUpTo(pos, b, sqrt, |b.constraints|)
  }

  // ---------------------------------------------------------------------------
  // 3. Update velocity
  // ---------------------------------------------------------------------------

  /** The velocity that carries prev to x in time sdt. */
  function Velocity(x: Vec3, prev: Vec3, sdt: real): Vec3
    requires sdt != 0.0
  {
    Vec3((x.x - prev.x) / sdt, (x.y - prev.y) / sdt, (x.z - prev.z) / sdt)
  }

  /** Moving from prev with Velocity(x, prev, sdt) for sdt lands on x. */
  lemma VelocityCarries(x: Vec3, prev: Vec3, sdt: real)
    requires sdt != 0.0
    ensures var v := Velocity(x, prev, sdt);
      prev.x + v.x * sdt == x.x && prev.y + v.y * sdt == x.y && prev.z + v.z * sdt == x.z
  {
  }

  /** A particle given the velocity that carries it from its previous
      position to its position in sdt; its positions stay. */
  function Rebuilt(q: Particle, sdt: real): Particle
    requires sdt != 0.0
  {
    Particle(q.pos, q.prevPos, Velocity(q.pos, q.prevPos, sdt))
  }

  /** Rebuilt as a map over particles. */
  function RebuildOf(sdt: real): Particle -> Particle
    requires sdt != 0.0
  {
    (q: Particle) => Rebuilt(q, sdt)
  }

  /** The velocity loop after its first i particles. */
  function ReconstructUpTo(c: Cloth, b: Body, sdt: real, i: nat): (r: Cloth)
    requires Shaped(c, b) && i <= b.numParticles && sdt != 0.0
    ensures Shaped(r, b)
  {
    MapFree(c, b, RebuildOf(sdt), i)
  }

  function Reconstruct(c: Cloth, b: Body, sdt: real): (r: Cloth)
    requires Shaped(c, b) && sdt != 0.0
    ensures Shaped(r, b)
  {
    ReconstructUpTo(c, b, sdt, b.numParticles)
  }

  /** The velocity loop gives every free live particle the velocity of its
      displacement over the substep and leaves every other velocity, and all
      positions, alone. */
  lemma ReconstructAt(c: Cloth, b: Body, sdt: real, p: nat)
    requires Shaped(c, b) && sdt != 0.0 && p < |b.invMass|
    ensures ParticleAt(Reconstruct(c, b, sdt), p) ==
      if p < b.numParticles && b.invMass[p] != 0.0
      then Particle(c.pos[p], c.prevPos[p], Velocity(c.pos[p], c.prevPos[p], sdt))
      else ParticleAt(c, p)
  {
    MapFreeAt(c, b, RebuildOf(sdt), b.numParticles, p);
  }

  // ---------------------------------------------------------------------------
  // Substeps and update
  // ---------------------------------------------------------------------------

  /** One substep: predict, one constraint pass, velocity update. */
  function Substep(c: Cloth, b: Body, g: Vec3, sdt: real, sqrt: real -> real): (r: Option<Cloth>)
    requires Shaped(c, b) && sdt != 0.0
    ensures r.Some? ==> Shaped(r.value, b)
  {
    var predicted := Predict(c, b, g, sdt);
    match Project(predicted.pos, b, sqrt)
    case None => None
    case Some(p) => Some(Reconstruct(Cloth(p, predicted.prevPos, predicted.vel), b, sdt))
  }

  /** The substep as a step on any cloth; one that does not fit the body fails. */
  function SubstepOf(b: Body, g: Vec3, sdt: real, sqrt: real -> real): (Cloth, nat) -> Option<Cloth>
  {
    (c: Cloth, k: nat) => if Shaped(c, b) && sdt != 0.0 then Substep(c, b, g, sdt, sqrt) else None
  }

  lemma SubstepOfShaped(b: Body, g: Vec3, sdt: real, sqrt: real -> real, c: Cloth, k: nat)
    requires Shaped(c, b) && sdt != 0.0
    ensures SubstepOf(b, g, sdt, sqrt)(c, k) == Substep(c, b, g, sdt, sqrt)
  {
  }

  /** update(dt, params): nothing for dt <= 0; otherwise params.substeps
      substeps of length dt / params.substeps (none when substeps <= 0). */
  function UpdateSpec(c: Cloth, b: Body, dt: real, params: SolverParams, sqrt: real -> real): (r: Option<Cloth>)
    ensures dt <= 0.0 || params.substeps <= 0 ==> r == Some(c)
  {
    if dt <= 0.0 || params.substeps <= 0 then Some(c)
    else Fold(SubstepOf(b, params.gravity, dt / params.substeps as real, sqrt), c, params.substeps)
  }

  /** A pinned particle (inverse mass 0) and a particle beyond the live
      count come out of a substep exactly as they went in. */
  lemma SubstepKeepsPinned(c: Cloth, b: Body, g: Vec3, sdt: real, sqrt: real -> real, p: nat)
    requires Shaped(c, b) && sdt != 0.0 && Substep(c, b, g, sdt, sqrt).Some?
    requires p < |b.invMass| && (p >= b.numParticles || b.invMass[p] == 0.0)
    ensures ParticleAt(Substep(c, b, g, sdt, sqrt).value, p) == ParticleAt(c, p)
  {
    var predicted := Predict(c, b, g, sdt);
    PredictAt(c, b, g, sdt, p);
    var projected := Project(predicted.pos, b, sqrt).value;
    var mid := Cloth(projected, predicted.prevPos, predicted.vel);
    ReconstructAt(mid, b, sdt, p);
  }

  /** update never changes the position, previous position or velocity of a
      pinned particle, nor of a particle beyond the live count. */
  lemma UpdateKeepsPinned(c: Cloth, b: Body, dt: real, params: SolverParams, sqrt: real -> real, p: nat)
    requires Shaped(c, b) && UpdateSpec(c, b, dt, params, sqrt).Some?
    requires p < |b.invMass| && (p >= b.numParticles || b.invMass[p] == 0.0)
    ensures Shaped(UpdateSpec(c, b, dt, params, sqrt).value, b)
    ensures ParticleAt(UpdateSpec(c, b, dt, params, sqrt).value, p) == ParticleAt(c, p)
  {
    if dt > 0.0 && params.substeps > 0 {
      var sdt := dt / params.substeps as real;
      var step := SubstepOf(b, params.gravity, sdt, sqrt);
      var inv := (t: Cloth) => Shaped(t, b) && ParticleAt(t, p) == ParticleAt(c, p);
      forall t, k: nat | inv(t) && step(t, k).Some?
        ensures inv(step(t, k).value)
      {
        SubstepKeepsPinned(t, b, params.gravity, sdt, sqrt, p);
      }
      FoldKeeps(step, inv, c, params.substeps);
    }
  }

  /** Without constraints, a substep takes a free live particle through
      Predicted and then gives it the velocity of its displacement. */
  lemma SubstepUnconstrained(c: Cloth, b: Body, g: Vec3, sdt: real, sqrt: real -> real, p: nat)
    requires Shaped(c, b) && sdt != 0.0 && b.constraints == []
    requires p < b.numParticles && b.invMass[p] != 0.0
    ensures Substep(c, b, g, sdt, sqrt).Some?
    ensures ParticleAt(Substep(c, b, g, sdt, sqrt).value, p) == Rebuilt(Predicted(ParticleAt(c, p), g, sdt), sdt)
  {
    var predicted := Predict(c, b, g, sdt);
    PredictAt(c, b, g, sdt, p);
    assert Project(predicted.pos, b, sqrt) == Some(predicted.pos);
    ReconstructAt(predicted, b, sdt, p);
  }

  /** A prediction that stays above the ground, followed by the velocity
      update, is one step of semi-implicit Euler. */
  lemma EulerStep(q: Particle, g: Vec3, sdt: real)
    requires sdt != 0.0 && 0.0 <= q.pos.y + (q.vel.y + g.y * sdt) * sdt
    ensures var r := Rebuilt(Predicted(q, g, sdt), sdt);
      && r.vel.x == q.vel.x + g.x * sdt && r.vel.y == q.vel.y + g.y * sdt && r.vel.z == q.vel.z + g.z * sdt
      && r.pos.x == q.pos.x + r.vel.x * sdt && r.pos.y == q.pos.y + r.vel.y * sdt && r.pos.z == q.pos.z + r.vel.z * sdt
      && r.prevPos == q.pos
  {
    var e := Predicted(q, g, sdt);
    PredictedMoves(q, g, sdt);
    VelocityOfStep(q.pos.x, e.vel.x, sdt);
    VelocityOfStep(q.pos.y, e.vel.y, sdt);
    VelocityOfStep(q.pos.z, e.vel.z, sdt);
  }

  /** Without constraints a substep is semi-implicit Euler: a free live
      particle that stays above the ground ends with velocity vel + g * sdt,
      position pos + (new velocity) * sdt and previous position pos. */
  lemma FreeFall(c: Cloth, b: Body, g: Vec3, sdt: real, sqrt: real -> real, p: nat)
    requires Shaped(c, b) && sdt != 0.0 && b.constraints == []
    requires p < b.numParticles && b.invMass[p] != 0.0
    requires 0.0 <= c.pos[p].y + (c.vel[p].y + g.y * sdt) * sdt
    ensures Substep(c, b, g, sdt, sqrt).Some?
    ensures var q := ParticleAt(c, p);
      var r := ParticleAt(Substep(c, b, g, sdt, sqrt).value, p);
      && r.vel.x == q.vel.x + g.x * sdt && r.vel.y == q.vel.y + g.y * sdt && r.vel.z == q.vel.z + g.z * sdt
      && r.pos.x == q.pos.x + r.vel.x * sdt && r.pos.y == q.pos.y + r.vel.y * sdt && r.pos.z == q.pos.z + r.vel.z * sdt
      && r.prevPos == q.pos
  {
    SubstepUnconstrained(c, b, g, sdt, sqrt, p);
    EulerStep(ParticleAt(c, p), g, sdt);
  }

  lemma VelocityOfStep(x: real, v: real, sdt: real)
    requires sdt != 0.0
    ensures (x + v * sdt - x) / sdt == v
  {
    assert x + v * sdt - x == v * sdt;
  }
}

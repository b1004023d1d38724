/** The solver object: flat typed buffers of capacity maxParticles, three
    slots per particle for positions, previous positions and velocities,
    two per distance constraint, three per triangle. Its methods do what the
    value-level definitions of the Grid and Dynamics modules say. */
module Solver {
  import opened Geometry
  import opened Grid
  import opened Dynamics

  /** A flat xyz buffer read as one point per particle: particle p owns the
      slots 3p, 3p + 1 and 3p + 2. */
  function Points(s: seq<real>, n: nat): (r: seq<Vec3>)
    requires |s| == 3 * n
    ensures |r| == n
    ensures forall p :: 0 <= p < n ==> r[p] == Vec3(s[3 * p], s[3 * p + 1], s[3 * p + 2])
  {
    seq(n, (p: int) requires 0 <= p < n => Vec3(s[3 * p], s[3 * p + 1], s[3 * p + 2]))
  }

  /** A flat buffer of endpoint pairs read as constraints: constraint k owns
      the slots 2k and 2k + 1. */
  function Pairs(s: seq<nat>, n: nat): (r: seq<DistanceConstraint>)
    requires |s| == 2 * n
    ensures |r| == n
    ensures forall k :: 0 <= k < n ==> r[k] == DistanceConstraint(s[2 * k], s[2 * k + 1])
  {
    seq(n, (k: int) requires 0 <= k < n => DistanceConstraint(s[2 * k], s[2 * k + 1]))
  }

  /** Writing the three slots of particle p changes point p and no other. */
  lemma PointsSet(s: seq<real>, n: nat, p: nat, v: Vec3)
    requires |s| == 3 * n && p < n
    ensures Points(s[3 * p := v.x][3 * p + 1 := v.y][3 * p + 2 := v.z], n) == Points(s, n)[p := v]
  {
  }

  /** Writing the two slots of constraint k changes constraint k and no other. */
  lemma PairsSet(s: seq<nat>, n: nat, k: nat, l: DistanceConstraint)
    requires |s| == 2 * n && k < n
    ensures Pairs(s[2 * k := l.p1][2 * k + 1 := l.p2], n) == Pairs(s, n)[k := l]
  {
  }

  /** Every constraint joins two of the first n particles. */
  predicate LinksWithin(links: seq<DistanceConstraint>, n: nat)
  {
    forall k :: 0 <= k < |links| ==> links[k].p1 < n && links[k].p2 < n
  }

  /** n particles at rest. */
  function Still(n: nat): (r: seq<Vec3>)
    ensures |r| == n && forall p :: 0 <= p < n ==> r[p] == Vec3(0.0, 0.0, 0.0)
  {
    seq(n, _ => Vec3(0.0, 0.0, 0.0))
  }

  /** Writes point v into particle p's three slots of a flat buffer. */
  method WritePoint(a: array<real>, p: nat, v: Vec3)
    requires 3 * p + 2 < a.Length
    modifies a
    ensures a[..] == old(a[..])[3 * p := v.x][3 * p + 1 := v.y][3 * p + 2 := v.z]
  {
    a[3 * p] := v.x;
    a[3 * p + 1] := v.y;
    a[3 * p + 2] := v.z;
  }

  /** A zero-filled flat buffer holds particles at the origin (or at rest). */
  lemma PointsStill(s: seq<real>, n: nat)
    requires |s| == 3 * n && forall k :: 0 <= k < |s| ==> s[k] == 0.0
    ensures Points(s, n) == Still(n)
  {
  }

  lemma SquaredDistanceOf(a: Vec3, b: Vec3, dx: real, dy: real, dz: real)
    requires dx == a.x - b.x && dy == a.y - b.y && dz == a.z - b.z
    ensures SquaredDistance(a, b) == dx * dx + dy * dy + dz * dz
  {
  }

  lemma GradientOf(a: Vec3, b: Vec3, dist: real, restLength: real, wSum: real, dx: real, dy: real, dz: real, correction: real, g: Vec3)
    requires dist != 0.0 && wSum != 0.0
    requires dx == a.x - b.x && dy == a.y - b.y && dz == a.z - b.z
    requires correction == (dist - restLength) / wSum
    requires g.x == dx / dist * correction && g.y == dy / dist * correction && g.z == dz / dist * correction
    ensures g == Gradient(a, b, dist, restLength, wSum)
  {
  }

  lemma PulledOf(a: Vec3, g: Vec3, w: real, r: Vec3)
    requires w > 0.0 && r.x == a.x - g.x * w && r.y == a.y - g.y * w && r.z == a.z - g.z * w
    ensures r == Pulled(a, g, w)
  {
  }

  lemma PushedOf(a: Vec3, g: Vec3, w: real, r: Vec3)
    requires w > 0.0 && r.x == a.x + g.x * w && r.y == a.y + g.y * w && r.z == a.z + g.z * w
    ensures r == Pushed(a, g, w)
  {
  }

  lemma PredictedOf(q: Particle, g: Vec3, sdt: real, v: Vec3, x: Vec3)
    requires v.x == q.vel.x + g.x * sdt && v.y == q.vel.y + g.y * sdt && v.z == q.vel.z + g.z * sdt
    requires x.x == q.pos.x + v.x * sdt && x.y == q.pos.y + v.y * sdt && x.z == q.pos.z + v.z * sdt
    ensures Predicted(q, g, sdt) ==
      if x.y < 0.0 then Particle(Vec3(x.x, 0.0, x.z), q.pos, Vec3(v.x, 0.0, v.z)) else Particle(x, q.pos, v)
  {
  }

  /** A buffer holding b followed by stale content, written right after b,
      holds b and the written value followed by the rest of the stale content. */
  lemma SetAfter<T>(b: seq<T>, t: seq<T>, v: T)
    requires |b| < |t|
    ensures (b + t[|b|..])[|b| := v] == (b + [v]) + t[|b| + 1..]
  {
  }

  class SoftBodySolver {
    var numParticles: nat
    /** Slots 3p, 3p + 1, 3p + 2 hold particle p's x, y, z. */
    const pos: array<real>
    const prevPos: array<real>
    const vel: array<real>
    /** 1 / mass; 0 marks a pinned particle. */
    const invMass: array<real>
    /** Slots 2k and 2k + 1 hold the endpoints of constraint k. */
    const distanceConstraints: array<nat>
    const restLengths: array<real>
    var numDistanceConstraints: nat
    /** Render triangles, three particle indices each. */
    const indices: array<nat>
    var cols: nat
    var rows: nat
    /** The capacity the buffers were allocated for. */
    ghost const maxParticles: nat

    /** The buffer part of Valid: sizes and distinct arrays, which writing
        into the buffers does not change. */
    ghost predicate Buffers()
    {
      && pos.Length == 3 * maxParticles && prevPos.Length == 3 * maxParticles && vel.Length == 3 * maxParticles
      && invMass.Length == maxParticles
      && distanceConstraints.Length == 12 * maxParticles
      && restLengths.Length == 6 * maxParticles
      && indices.Length == 6 * maxParticles
      && pos != prevPos && pos != vel && prevPos != vel
      && invMass != pos && invMass != prevPos && invMass != vel
      && restLengths != pos && restLengths != prevPos && restLengths != vel && restLengths != invMass
      && distanceConstraints != indices
    }

    /** The buffers have the sizes the constructor gives them, the live counts
        fit them, and every live constraint joins two live particles. */
    ghost predicate Valid()
      reads this, distanceConstraints
    {
      && Buffers()
      && numParticles <= maxParticles
      && numDistanceConstraints <= 6 * maxParticles
      && LinksWithin(Links(), numParticles)
    }

    /** The live constraints. */
    ghost function Links(): seq<DistanceConstraint>
      reads this, distanceConstraints
      requires distanceConstraints.Length == 12 * maxParticles && numDistanceConstraints <= 6 * maxParticles
    {
      Pairs(distanceConstraints[..], 6 * maxParticles)[..numDistanceConstraints]
    }

    /** The positions alone, one point per slot of capacity. */
    ghost function Positions(): seq<Vec3>
      reads pos
      requires pos.Length == 3 * maxParticles
    {
      Points(pos[..], maxParticles)
    }

    /** The three particle buffers as values, over the whole capacity. */
    ghost function Particles(): Cloth
      reads pos, prevPos, vel
      requires pos.Length == 3 * maxParticles && prevPos.Length == 3 * maxParticles && vel.Length == 3 * maxParticles
    {
      Cloth(Points(pos[..], maxParticles), Points(prevPos[..], maxParticles), Points(vel[..], maxParticles))
    }

    /** What update reads and never writes, as a value. */
    ghost function Structure(): Body
      reads this, invMass, distanceConstraints, restLengths
      requires invMass.Length == maxParticles && distanceConstraints.Length == 12 * maxParticles
      requires restLengths.Length == 6 * maxParticles && numDistanceConstraints <= 6 * maxParticles
    {
      Body(invMass[..], numParticles, Links(), restLengths[..numDistanceConstraints])
    }

    lemma ValidShaped()
      requires Valid()
      ensures Shaped(Particles(), Structure())
    {
    }

    /** Allocates zero-filled buffers for maxParticles particles,
        6 * maxParticles constraints and 6 * maxParticles triangle indices;
        nothing is live. */
    constructor(maxParticles: nat := 5000)
      ensures Valid() && this.maxParticles == maxParticles
      ensures numParticles == 0 && numDistanceConstraints == 0 && cols == 0 && rows == 0
      ensures fresh(pos) && fresh(prevPos) && fresh(vel) && fresh(invMass)
      ensures fresh(distanceConstraints) && fresh(restLengths) && fresh(indices)
      ensures Particles() == Cloth(Still(maxParticles), Still(maxParticles), Still(maxParticles))
      ensures invMass[..] == seq(maxParticles, _ => 0.0)
      ensures distanceConstraints[..] == seq(12 * maxParticles, _ => 0)
      ensures restLengths[..] == seq(6 * maxParticles, _ => 0.0)
      ensures indices[..] == seq(6 * maxParticles, _ => 0)
    {
      this.maxParticles := maxParticles;
      pos := new real[maxParticles * 3](_ => 0.0);
      prevPos := new real[maxParticles * 3](_ => 0.0);
      vel := new real[maxParticles * 3](_ => 0.0);
      invMass := new real[maxParticles](_ => 0.0);
      var maxConstraints := maxParticles * 6;
      distanceConstraints := new nat[maxConstraints * 2](_ => 0);
      restLengths := new real[maxConstraints](_ => 0.0);
      indices := new nat[maxParticles * 6](_ => 0);
      numParticles := 0;
      numDistanceConstraints := 0;
      cols := 0;
      rows := 0;
      new;
      PointsStill(pos[..], maxParticles);
      PointsStill(prevPos[..], maxParticles);
      PointsStill(vel[..], maxParticles);
    }

    /** Integrates one free particle (see Predicted), in the source's order of
        writes: velocity, previous position, position, ground clamp. */
    method PredictParticle(i: nat, g: Vec3, sdt: real)
      requires Valid() && i < maxParticles
      modifies pos, prevPos, vel
      ensures Particles() == SetParticle(old(Particles()), i, Predicted(ParticleAt(old(Particles()), i), g, sdt))
    {
      ghost var q := ParticleAt(Particles(), i);
      var i3 := i * 3;
      assert q.vel == Vec3(vel[i3], vel[i3 + 1], vel[i3 + 2]);
      assert q.pos == Vec3(pos[i3], pos[i3 + 1], pos[i3 + 2]);
      var v := Vec3(vel[i3] + g.x * sdt, vel[i3 + 1] + g.y * sdt, vel[i3 + 2] + g.z * sdt);
      var prev := Vec3(pos[i3], pos[i3 + 1], pos[i3 + 2]);
      var x := Vec3(prev.x + v.x * sdt, prev.y + v.y * sdt, prev.z + v.z * sdt);
      PredictedOf(q, g, sdt, v, x);
      if x.y < 0.0 {
        x := Vec3(x.x, 0.0, x.z);
        v := Vec3(v.x, 0.0, v.z);
      }
      assert Particle(x, prev, v) == Predicted(q, g, sdt);
      WritePoint(vel, i, v);
      WritePoint(prevPos, i, prev);
      WritePoint(pos, i, x);
      PointsSet(old(pos[..]), maxParticles, i, x);
      PointsSet(old(prevPos[..]), maxParticles, i, prev);
      PointsSet(old(vel[..]), maxParticles, i, v);
    }

    /** The integrate loop of update: every free live particle, in index
        order, is predicted; pinned ones are skipped. */
    method PredictPositions(g: Vec3, sdt: real)
      requires Valid()
      modifies pos, prevPos, vel
      ensures Particles() == Predict(old(Particles()), Structure(), g, sdt)
    {
      ghost var c := Particles();
      var numParticles := this.numParticles;
      for i := 0 to numParticles
        invariant Particles() == PredictUpTo(c, Structure(), g, sdt, i)
      {
        if invMass[i] == 0.0 {
          continue;
        }
        PredictParticle(i, g, sdt);
      }
    }

    /** Gives one particle the velocity that carried it from its previous
        position to its position in sdt. */
    method ReconstructParticle(i: nat, sdt: real)
      requires Valid() && i < maxParticles && sdt != 0.0
      modifies vel
      ensures Particles() == SetParticle(old(Particles()), i, RebuildOf(sdt)(ParticleAt(old(Particles()), i)))
    {
      var i3 := i * 3;
      var v := Vec3((pos[i3] - prevPos[i3]) / sdt, (pos[i3 + 1] - prevPos[i3 + 1]) / sdt, (pos[i3 + 2] - prevPos[i3 + 2]) / sdt);
      assert v == Velocity(Particles().pos[i], Particles().prevPos[i], sdt);
      WritePoint(vel, i, v);
      PointsSet(old(vel[..]), maxParticles, i, v);
    }

    /** The velocity loop of update: every free live particle, in index
        order, gets the velocity of its displacement; pinned ones are skipped. */
    method ReconstructVelocities(sdt: real)
      requires Valid() && sdt != 0.0
      modifies vel
      ensures Particles() == Reconstruct(old(Particles()), Structure(), sdt)
    {
      ghost var c := Particles();
      var numParticles := this.numParticles;
      for i := 0 to numParticles
        invariant Particles() == ReconstructUpTo(c, Structure(), sdt, i)
      {
        if invMass[i] == 0.0 {
          continue;
        }
        ReconstructParticle(i, sdt);
      }
    }

    /** The two guarded writes of a constraint: p1 moves against grad by w1
        when w1 > 0, then p2 along grad by w2 when w2 > 0. */
    method ApplyCorrection(p1: nat, p2: nat, w1: real, w2: real, gradX: real, gradY: real, gradZ: real)
      requires Valid() && p1 < maxParticles && p2 < maxParticles
      modifies pos
      ensures Points(pos[..], maxParticles) == Correct(old(Particles()).pos, p1, p2, w1, w2, Vec3(gradX, gradY, gradZ))
    {
      ghost var grad := Vec3(gradX, gradY, gradZ);
      var i1 := p1 * 3;
      var i2 := p2 * 3;
      if w1 > 0.0 {
        assert Particles().pos[p1] == Vec3(pos[i1], pos[i1 + 1], pos[i1 + 2]);
        var a := Vec3(pos[i1] - gradX * w1, pos[i1 + 1] - gradY * w1, pos[i1 + 2] - gradZ * w1);
        PulledOf(Particles().pos[p1], grad, w1, a);
        WritePoint(pos, p1, a);
        PointsSet(old(pos[..]), maxParticles, p1, a);
      }
      if w2 > 0.0 {
        ghost var pos1 := pos[..];
        assert Particles().pos[p2] == Vec3(pos[i2], pos[i2 + 1], pos[i2 + 2]);
        var b := Vec3(pos[i2] + gradX * w2, pos[i2 + 1] + gradY * w2, pos[i2 + 2] + gradZ * w2);
        PushedOf(Particles().pos[p2], grad, w2, b);
        WritePoint(pos, p2, b);
        PointsSet(pos1, maxParticles, p2, b);
      }
    }

    /** Projects live constraint k (the body of the constraint loop). */
    method ProjectConstraint(k: nat, sqrt: real -> real)
      requires Valid() && k < numDistanceConstraints
      requires ProjectOne(Particles().pos, invMass[..], Links()[k], restLengths[k], sqrt).Some?
      modifies pos
      ensures Points(pos[..], maxParticles) == ProjectOne(old(Particles()).pos, invMass[..], Links()[k], restLengths[k], sqrt).value
    {
      ghost var P := Particles().pos;
      var p1 := distanceConstraints[k * 2];
      var p2 := distanceConstraints[k * 2 + 1];
      assert DistanceConstraint(p1, p2) == Links()[k];
      var i1 := p1 * 3;
      var i2 := p2 * 3;
      var w1 := invMass[p1];
      var w2 := invMass[p2];
      var wSum := w1 + w2;
      if wSum == 0.0 {
        return;
      }
      assert P[p1] == Vec3(pos[i1], pos[i1 + 1], pos[i1 + 2]);
      assert P[p2] == Vec3(pos[i2], pos[i2 + 1], pos[i2 + 2]);
      var dx := pos[i1] - pos[i2];
      var dy := pos[i1 + 1] - pos[i2 + 1];
      var dz := pos[i1 + 2] - pos[i2 + 2];
      var dist := sqrt(dx * dx + dy * dy + dz * dz);
      SquaredDistanceOf(P[p1], P[p2], dx, dy, dz);
      if dist == 0.0 {
        // Neither endpoint has a positive inverse mass, so none of the
        // guarded writes below happens and the correction is never used.
        return;
      }
      var restLen := restLengths[k];
      var correction := (dist - restLen) / wSum;
      var gradX := dx / dist * correction;
      var gradY := dy / dist * correction;
      var gradZ := dz / dist * correction;
      GradientOf(P[p1], P[p2], dist, restLen, wSum, dx, dy, dz, correction, Vec3(gradX, gradY, gradZ));
      ApplyCorrection(p1, p2, w1, w2, gradX, gradY, gradZ);
    }

    /** Step i of the constraint fold is the projection of live constraint i. */
    lemma StepAt(sqrt: real -> real, i: nat, p: seq<Vec3>)
      requires Valid() && i < numDistanceConstraints && Fits(p, Structure())
      ensures ProjectStep(Structure(), sqrt)(p, i) == ProjectOne(p, invMass[..], Links()[i], restLengths[i], sqrt)
    {
    }

    /** The constraint pass: every live constraint once, in buffer order.
        `dt` is received and not read. */
    method SolveDistanceConstraints(dt: real, sqrt: real -> real)
      requires Valid() && Project(Particles().pos, Structure(), sqrt).Some?
      modifies pos
      ensures Points(pos[..], maxParticles) == Project(old(Particles()).pos, Structure(), sqrt).value
    {
      ghost var P := Particles().pos;
      ghost var b := Structure();
      ghost var step := ProjectStep(b, sqrt);
      for i := 0 to numDistanceConstraints
        invariant Some(Points(pos[..], maxParticles)) == Fold(step, P, i)
      {
        FoldPrefix(step, P, i + 1, |b.constraints|);
        FoldNext(step, P, i);
        StepAt(sqrt, i, Points(pos[..], maxParticles));
        ProjectConstraint(i, sqrt);
      }
    }

    /** One substep of update: integrate, one constraint pass, velocity update. */
    method Substep(g: Vec3, sdt: real, sqrt: real -> real)
      requires Valid() && sdt != 0.0 && Dynamics.Substep(Particles(), Structure(), g, sdt, sqrt).Some?
      modifies pos, prevPos, vel
      ensures Some(Particles()) == Dynamics.Substep(old(Particles()), Structure(), g, sdt, sqrt)
    {
      PredictPositions(g, sdt);
      ghost var predicted := Particles();
      SolveDistanceConstraints(sdt, sqrt);
      assert Particles() == Cloth(Project(predicted.pos, Structure(), sqrt).value, predicted.prevPos, predicted.vel);
      ReconstructVelocities(sdt);
    }

    /** update(dt, params): nothing when dt <= 0; otherwise params.substeps
        substeps of predict, constraint pass and velocity update, each with
        sdt = dt / params.substeps. */
    method Update(dt: real, params: SolverParams, sqrt: real -> real)
      requires Valid() && UpdateSpec(Particles(), Structure(), dt, params, sqrt).Some?
      modifies pos, prevPos, vel
      ensures Some(Particles()) == UpdateSpec(old(Particles()), Structure(), dt, params, sqrt)
    {
      if dt <= 0.0 {
        return;
      }
      if params.substeps <= 0 {
        return;
      }
      var sdt := dt / params.substeps as real;
      RunSubsteps(params.substeps, params.gravity, sdt, sqrt);
    }

    /** The substep loop of update: n substeps of length sdt. */
    method RunSubsteps(n: nat, g: Vec3, sdt: real, sqrt: real -> real)
      requires Valid() && sdt != 0.0 && Fold(SubstepOf(Structure(), g, sdt, sqrt), Particles(), n).Some?
      modifies pos, prevPos, vel
      ensures Some(Particles()) == Fold(SubstepOf(Structure(), g, sdt, sqrt), old(Particles()), n)
    {
      ghost var c := Particles();
      ghost var b := Structure();
      ghost var substep := SubstepOf(b, g, sdt, sqrt);
      for step := 0 to n
        invariant Structure() == b
        invariant Some(Particles()) == Fold(substep, c, step)
      {
        FoldPrefix(substep, c, step + 1, n);
        FoldNext(substep, c, step);
        ValidShaped();
        SubstepOfShaped(b, g, sdt, sqrt, Particles(), step);
        Substep(g, sdt, sqrt);
      }
    }

    /** The layout loop has written points pts and inverse masses masses to
        the first k particles (previous position equal to position, zero
        velocity); the rest of each buffer is as before the loop (c, w0). */
    ghost predicate Placed(k: nat, pts: seq<Vec3>, masses: seq<real>, c: Cloth, w0: seq<real>)
      reads pos, prevPos, vel, invMass
    {
      && Buffers()
      && LayoutSized(k, pts, masses, c, w0)
      && Particles() == Cloth(pts + c.pos[k..], pts + c.prevPos[k..], Still(k) + c.vel[k..])
      && invMass[..] == masses + w0[k..]
    }

    /** The sizes Placed needs: k particles placed, out of full buffers. */
    ghost predicate LayoutSized(k: nat, pts: seq<Vec3>, masses: seq<real>, c: Cloth, w0: seq<real>)
    {
      && k <= maxParticles && |pts| == k && |masses| == k
      && |c.pos| == maxParticles && |c.prevPos| == maxParticles && |c.vel| == maxParticles && |w0| == maxParticles
    }

    /** The writes of one particle of the layout loop: position x, previous
        position copied from the position just written, zero velocity, and
        inverse mass w. */
    method PlaceParticle(idx: nat, x: Vec3, w: real, ghost pts: seq<Vec3>, ghost masses: seq<real>, ghost c: Cloth, ghost w0: seq<real>)
      requires idx < maxParticles && Placed(idx, pts, masses, c, w0)
      modifies pos, prevPos, vel, invMass
      ensures Placed(idx + 1, pts + [x], masses + [w], c, w0)
    {
      WritePoint(pos, idx, x);
      WritePoint(prevPos, idx, Vec3(pos[3 * idx], pos[3 * idx + 1], pos[3 * idx + 2]));
      WritePoint(vel, idx, Vec3(0.0, 0.0, 0.0));
      invMass[idx] := w;
      PointsSet(old(pos[..]), maxParticles, idx, x);
      PointsSet(old(prevPos[..]), maxParticles, idx, x);
      PointsSet(old(vel[..]), maxParticles, idx, Vec3(0.0, 0.0, 0.0));
      SetAfter(pts, c.pos, x);
      SetAfter(pts, c.prevPos, x);
      SetAfter(Still(idx), c.vel, Vec3(0.0, 0.0, 0.0));
      SetAfter(masses, w0, w);
      assert Still(idx) + [Vec3(0.0, 0.0, 0.0)] == Still(idx + 1);
    }

    /** One pass of the inner layout loop of a cols x rows grid: particle
        (i, j) goes at idx + i, at its grid point (cell is the grid's
        ParticleCell), pinned when it is a top corner; done and doneMass are
        what the rows above placed. */
    method LayoutCell(cols: nat, rows: nat, i: nat, j: nat, idx: nat, spacing: real, startPos: Vec3,
                      ghost cell: (nat, nat) -> seq<Vec3>, ghost done: seq<Vec3>, ghost doneMass: seq<real>, ghost c: Cloth, ghost w0: seq<real>)
      requires cell == ParticleCell(cols, rows, spacing, startPos) && idx + i < maxParticles
      requires Placed(idx + i, done + Row(cell, j, i), doneMass + Row(MassCell(cols), j, i), c, w0)
      modifies pos, prevPos, vel, invMass
      ensures Placed(idx + (i + 1), done + Row(cell, j, i + 1), doneMass + Row(MassCell(cols), j, i + 1), c, w0)
    {
      var x := Vec3(startPos.x + (i as real - cols as real / 2.0) * spacing, startPos.y, startPos.z + (j as real - rows as real / 2.0) * spacing);
      var isPinned := j == 0 && (i == 0 || i == cols - 1);
      ParticleCellIs(cols, rows, spacing, startPos, i, j, x);
      ghost var pts := done + Row(cell, j, i);
      ghost var masses := doneMass + Row(MassCell(cols), j, i);
      assert MassCell(cols)(i, j) == [if isPinned then 0.0 else 1.0];
      PlaceParticle(idx + i, x, if isPinned then 0.0 else 1.0, pts, masses, c, w0);
      assert pts + [x] == done + Row(cell, j, i + 1);
      assert masses + [if isPinned then 0.0 else 1.0] == doneMass + Row(MassCell(cols), j, i + 1);
    }

    /** Row j of the first loop of initGrid for a cols x rows grid: particles
        (0, j), ..., (cols - 1, j) are placed one after the other at idx,
        idx + 1, ..., after what the rows above placed (done, doneMass); c and
        w0 are the buffers as they were before the loop. */
    method LayoutRow(cols: nat, rows: nat, j: nat, idx: nat, spacing: real, startPos: Vec3, ghost cell: (nat, nat) -> seq<Vec3>,
                     ghost done: seq<Vec3>, ghost doneMass: seq<real>, ghost c: Cloth, ghost w0: seq<real>) returns (next: nat)
      requires cell == ParticleCell(cols, rows, spacing, startPos)
      requires idx + cols <= maxParticles && Placed(idx, done, doneMass, c, w0)
      modifies pos, prevPos, vel, invMass
      ensures next == idx + cols
      ensures Placed(next, done + Row(cell, j, cols), doneMass + Row(MassCell(cols), j, cols), c, w0)
    {
      assert done + Row(cell, j, 0) == done;
      assert doneMass + Row(MassCell(cols), j, 0) == doneMass;
      for i: nat := 0 to cols
        invariant Placed(idx + i, done + Row(cell, j, i), doneMass + Row(MassCell(cols), j, i), c, w0)
      {
        LayoutCell(cols, rows, i, j, idx, spacing, startPos, cell, done, doneMass, c, w0);
      }
      next := idx + cols;
    }

    /** The first loop of initGrid for a cols x rows grid: particle (i, j),
        in row-major order, is placed at its grid point, at rest, pinned by
        the pinning rule. */
    method LayoutParticles(cols: nat, rows: nat, spacing: real, startPos: Vec3)
      requires Buffers() && cols * rows <= maxParticles
      modifies pos, prevPos, vel, invMass
      ensures Particles().pos == GridPositions(cols, rows, spacing, startPos) + old(Particles()).pos[cols * rows..]
      ensures Particles().prevPos == GridPositions(cols, rows, spacing, startPos) + old(Particles()).prevPos[cols * rows..]
      ensures Particles().vel == Still(cols * rows) + old(Particles()).vel[cols * rows..]
      ensures invMass[..] == GridInvMass(cols, rows) + old(invMass[..])[cols * rows..]
    {
      ghost var c := Particles();
      ghost var w0 := invMass[..];
      ghost var cell := ParticleCell(cols, rows, spacing, startPos);
      var idx := 0;
      for j := 0 to rows
        invariant idx == j * cols && idx <= cols * rows
        invariant Placed(idx, Rows(cell, cols, j), Rows(MassCell(cols), cols, j), c, w0)
      {
        MulMono(j + 1, rows, cols);
        MulComm(rows, cols);
        MulSucc(j, cols);
        idx := LayoutRow(cols, rows, j, idx, spacing, startPos, cell, Rows(cell, cols, j), Rows(MassCell(cols), cols, j), c, w0);
      }
      MulComm(rows, cols);
    }

    /** The constraint pass has written constraints links to the first cc
        slots, each with its rest length over positions P; the slots after
        them are as before the pass (constraints d0, rest lengths r0). */
    ghost predicate Emitted(cc: nat, links: seq<DistanceConstraint>, P: seq<Vec3>, sqrt: real -> real,
                            d0: seq<DistanceConstraint>, r0: seq<real>)
      reads distanceConstraints, restLengths
      requires distanceConstraints.Length == 12 * maxParticles && restLengths.Length == 6 * maxParticles
    {
      && cc <= 6 * maxParticles && |links| == cc && |d0| == 6 * maxParticles && |r0| == 6 * maxParticles
      && Pairs(distanceConstraints[..], 6 * maxParticles) == links + d0[cc..]
      && restLengths[..] == RestsOf(P, links, sqrt) + r0[cc..]
    }

    /** The triangle pass has written indices tris to the first ic slots; the
        rest is as before the pass (t0). */
    ghost predicate Drawn(ic: nat, tris: seq<nat>, t0: seq<nat>)
      reads indices
      requires indices.Length == 6 * maxParticles
    {
      ic <= 6 * maxParticles && |tris| == ic && |t0| == 6 * maxParticles && indices[..] == tris + t0[ic..]
    }

    /** The addConstraint closure of initGrid: records constraint (p1, p2) in
        slot cc, with the current distance between its endpoints as its rest
        length. */
    method AddConstraint(cc: nat, p1: nat, p2: nat, sqrt: real -> real) returns (next: nat)
      requires Buffers() && cc < 6 * maxParticles && p1 < maxParticles && p2 < maxParticles
      modifies distanceConstraints, restLengths
      ensures next == cc + 1
      ensures Pairs(distanceConstraints[..], 6 * maxParticles) == old(Pairs(distanceConstraints[..], 6 * maxParticles))[cc := DistanceConstraint(p1, p2)]
      ensures restLengths[..] == old(restLengths[..])[cc := RestLength(Positions(), DistanceConstraint(p1, p2), sqrt)]
    {
      distanceConstraints[cc * 2] := p1;
      distanceConstraints[cc * 2 + 1] := p2;
      var dx := pos[3 * p1] - pos[3 * p2];
      var dy := pos[3 * p1 + 1] - pos[3 * p2 + 1];
      var dz := pos[3 * p1 + 2] - pos[3 * p2 + 2];
      restLengths[cc] := sqrt(dx * dx + dy * dy + dz * dz);
      ghost var P := Positions();
      assert P[p1] == Vec3(pos[3 * p1], pos[3 * p1 + 1], pos[3 * p1 + 2]);
      assert P[p2] == Vec3(pos[3 * p2], pos[3 * p2 + 1], pos[3 * p2 + 2]);
      SquaredDistanceOf(P[p1], P[p2], dx, dy, dz);
      PairsSet(old(distanceConstraints[..]), 6 * maxParticles, cc, DistanceConstraint(p1, p2));
      next := cc + 1;
    }

    /** One call of the addConstraint closure during the constraint pass:
        constraint (p1, p2) follows the constraints links. */
    method EmitLink(p1: nat, p2: nat, cc: nat, sqrt: real -> real, ghost P: seq<Vec3>,
                    ghost links: seq<DistanceConstraint>, ghost d0: seq<DistanceConstraint>, ghost r0: seq<real>)
      returns (next: nat)
      requires Buffers() && p1 < maxParticles && p2 < maxParticles && cc < 6 * maxParticles
      requires Positions() == P && Emitted(cc, links, P, sqrt, d0, r0)
      modifies distanceConstraints, restLengths
      ensures next == cc + 1
      ensures Emitted(next, links + [DistanceConstraint(p1, p2)], P, sqrt, d0, r0)
    {
      next := AddConstraint(cc, p1, p2, sqrt);
      SetAfter(links, d0, DistanceConstraint(p1, p2));
      SetAfter(RestsOf(P, links, sqrt), r0, RestLength(P, DistanceConstraint(p1, p2), sqrt));
      RestsSnoc(P, links, DistanceConstraint(p1, p2), sqrt);
    }

    /** The structural constraints of the cell whose particle is id in a grid
        cols wide: horizontal, then vertical, each when its guard holds. */
    method EmitStructural(id: nat, cols: nat, horizontal: bool, vertical: bool, cc: nat, sqrt: real -> real,
                          ghost P: seq<Vec3>, ghost links: seq<DistanceConstraint>,
                          ghost d0: seq<DistanceConstraint>, ghost r0: seq<real>)
      returns (next: nat)
      requires Buffers()
      requires (horizontal ==> id + 1 < maxParticles) && (vertical ==> id + cols < maxParticles)
      requires Positions() == P && Emitted(cc, links, P, sqrt, d0, r0)
      requires cc + |StructuralLinks(id, cols, horizontal, vertical)| <= 6 * maxParticles
      modifies distanceConstraints, restLengths
      ensures next == cc + |StructuralLinks(id, cols, horizontal, vertical)|
      ensures Emitted(next, links + StructuralLinks(id, cols, horizontal, vertical), P, sqrt, d0, r0)
    {
      ghost var ls := links;
      next := cc;
      if horizontal {
        next := EmitLink(id, id + 1, next, sqrt, P, ls, d0, r0);
        ls := ls + [DistanceConstraint(id, id + 1)];
      }
      if vertical {
        next := EmitLink(id, id + cols, next, sqrt, P, ls, d0, r0);
        ls := ls + [DistanceConstraint(id, id + cols)];
      }
      assert ls == links + StructuralLinks(id, cols, horizontal, vertical);
    }

    /** The shear constraints of the interior cell whose particle is id in a
        grid cols wide: both diagonals. */
    method EmitShear(id: nat, cols: nat, cc: nat, sqrt: real -> real, ghost P: seq<Vec3>, ghost links: seq<DistanceConstraint>,
                     ghost d0: seq<DistanceConstraint>, ghost r0: seq<real>)
      returns (next: nat)
      requires Buffers() && id + cols + 1 < maxParticles && cc + 2 <= 6 * maxParticles
      requires Positions() == P && Emitted(cc, links, P, sqrt, d0, r0)
      modifies distanceConstraints, restLengths
      ensures next == cc + 2
      ensures Emitted(next, links + ShearLinks(id, cols, true), P, sqrt, d0, r0)
    {
      var mid := EmitLink(id, id + cols + 1, cc, sqrt, P, links, d0, r0);
      next := EmitLink(id + 1, id + cols, mid, sqrt, P, links + [DistanceConstraint(id, id + cols + 1)], d0, r0);
      assert links + [DistanceConstraint(id, id + cols + 1)] + [DistanceConstraint(id + 1, id + cols)] == links + ShearLinks(id, cols, true);
    }

    /** Three consecutive indices, one render triangle. */
    method PutTriangle(at: nat, a: nat, b: nat, c: nat, ghost tris: seq<nat>, ghost t0: seq<nat>) returns (next: nat)
      requires indices.Length == 6 * maxParticles
      requires Drawn(at, tris, t0) && at + 3 <= 6 * maxParticles
      modifies indices
      ensures next == at + 3
      ensures Drawn(next, tris + [a, b, c], t0)
    {
      indices[at] := a;
      indices[at + 1] := b;
      indices[at + 2] := c;
      next := at + 3;
      assert indices[..] == (tris + [a, b, c]) + t0[next..];
    }

    /** The render triangles of the interior cell whose particle is id in a
        grid cols wide: two. */
    method EmitTriangles(id: nat, cols: nat, ic: nat, ghost tris: seq<nat>, ghost t0: seq<nat>) returns (next: nat)
      requires indices.Length == 6 * maxParticles
      requires Drawn(ic, tris, t0) && ic + 6 <= 6 * maxParticles
      modifies indices
      ensures next == ic + 6
      ensures Drawn(next, tris + TrianglesAt(id, cols, true), t0)
    {
      var mid := PutTriangle(ic, id, id + cols, id + 1, tris, t0);
      next := PutTriangle(mid, id + 1, id + cols, id + cols + 1, tris + [id, id + cols, id + 1], t0);
      assert tris + [id, id + cols, id + 1] + [id + 1, id + cols, id + cols + 1] == tris + TrianglesAt(id, cols, true);
    }

    /** One pass of the inner loop of the second loop of initGrid, for the
        cell whose particle is id in a grid cols wide: its constraints `cell`,
        then its triangles, over the laid-out positions P. The cell has a
        right neighbour when horizontal holds and a lower one when vertical
        holds. GridCell passes the cell's id and guards already computed;
        the ghost arguments name its expected constraints and triangles, so
        that this contract matches GridCell's goal term for term and no
        proof here multiplies j by cols. */
    method EmitCell(id: nat, cols: nat, horizontal: bool, vertical: bool, cc: nat, ic: nat, sqrt: real -> real,
                    ghost P: seq<Vec3>, ghost links: seq<DistanceConstraint>, ghost tris: seq<nat>, ghost t0: seq<nat>,
                    ghost cell: seq<DistanceConstraint>, ghost triangles: seq<nat>,
                    ghost d0: seq<DistanceConstraint>, ghost r0: seq<real>)
      returns (cc': nat, ic': nat)
      requires Buffers()
      requires (horizontal ==> id + 1 < maxParticles) && (vertical ==> id + cols < maxParticles)
      requires horizontal && vertical ==> id + cols + 1 < maxParticles
      requires cell == StructuralLinks(id, cols, horizontal, vertical) + ShearLinks(id, cols, horizontal && vertical)
      requires triangles == TrianglesAt(id, cols, horizontal && vertical)
      requires Positions() == P && Emitted(cc, links, P, sqrt, d0, r0) && Drawn(ic, tris, t0)
      requires cc + |cell| <= 6 * maxParticles && ic + |triangles| <= 6 * maxParticles
      modifies distanceConstraints, restLengths, indices
      ensures Emitted(cc', links + cell, P, sqrt, d0, r0)
      ensures Drawn(ic', tris + triangles, t0)
    {
      ghost var structural := links + StructuralLinks(id, cols, horizontal, vertical);
      cc' := EmitStructural(id, cols, horizontal, vertical, cc, sqrt, P, links, d0, r0);
      ic' := ic;
      if horizontal && vertical {
        cc' := EmitShear(id, cols, cc', sqrt, P, structural, d0, r0);
        ic' := EmitTriangles(id, cols, ic, tris, t0);
      }
      assert structural + ShearLinks(id, cols, horizontal && vertical) == links + cell;
    }

    /** Cell (i, j) of a cols x rows grid: the cell whose particle is
        j * cols + i, with a right neighbour unless in the last column and a
        lower one unless in the last row. */
    method GridCell(cols: nat, rows: nat, i: nat, j: nat, cc: nat, ic: nat, sqrt: real -> real, ghost P: seq<Vec3>,
                    ghost links: seq<DistanceConstraint>, ghost tris: seq<nat>, ghost t0: seq<nat>,
                    ghost d0: seq<DistanceConstraint>, ghost r0: seq<real>)
      returns (cc': nat, ic': nat)
      requires Buffers() && i < cols && j < rows && cols * rows <= maxParticles
      requires Positions() == P && Emitted(cc, links, P, sqrt, d0, r0) && Drawn(ic, tris, t0)
      requires cc + |CellLinks(cols, rows, i, j)| <= 6 * maxParticles
      requires ic + |CellTriangles(cols, rows, i, j)| <= 6 * maxParticles
      modifies distanceConstraints, restLengths, indices
      ensures Emitted(cc', links + CellLinks(cols, rows, i, j), P, sqrt, d0, r0)
      ensures Drawn(ic', tris + CellTriangles(cols, rows, i, j), t0)
    {
      CellSplit(cols, rows, i, j);
      CellCorners(cols, rows, i, j);
      var id := j * cols + i;
      cc', ic' := EmitCell(id, cols, i < cols - 1, j < rows - 1, cc, ic, sqrt, P, links, tris, t0,
                           CellLinks(cols, rows, i, j), CellTriangles(cols, rows, i, j), d0, r0);
    }

    /** Row j of the second loop of initGrid, for a cols x rows grid. */
    method EmitRow(cols: nat, rows: nat, j: nat, cc: nat, ic: nat, sqrt: real -> real, ghost t0: seq<nat>,
                   ghost d0: seq<DistanceConstraint>, ghost r0: seq<real>)
      returns (cc': nat, ic': nat)
      requires Buffers() && j < rows && cols * rows <= maxParticles
      requires Emitted(cc, Rows(LinkCell(cols, rows), cols, j), Positions(), sqrt, d0, r0)
      requires Drawn(ic, Rows(TriangleCell(cols, rows), cols, j), t0)
      modifies distanceConstraints, restLengths, indices
      ensures Emitted(cc', Rows(LinkCell(cols, rows), cols, j + 1), Positions(), sqrt, d0, r0)
      ensures Drawn(ic', Rows(TriangleCell(cols, rows), cols, j + 1), t0)
    {
      ghost var P := Positions();
      GridFits(cols, rows, 0.0, Vec3(0.0, 0.0, 0.0), maxParticles);
      cc', ic' := cc, ic;
      for i: nat := 0 to cols
        invariant Positions() == P
        invariant Emitted(cc', Before(LinkCell(cols, rows), cols, j, i), P, sqrt, d0, r0)
        invariant Drawn(ic', Before(TriangleCell(cols, rows), cols, j, i), t0)
      {
        CellInOrder(LinkCell(cols, rows), cols, rows, i, j);
        CellInOrder(TriangleCell(cols, rows), cols, rows, i, j);
        BeforeNext(LinkCell(cols, rows), cols, j, i);
        BeforeNext(TriangleCell(cols, rows), cols, j, i);
        assert LinkCell(cols, rows)(i, j) == CellLinks(cols, rows, i, j);
        assert TriangleCell(cols, rows)(i, j) == CellTriangles(cols, rows, i, j);
        cc', ic' := GridCell(cols, rows, i, j, cc', ic', sqrt, P,
                             Before(LinkCell(cols, rows), cols, j, i), Before(TriangleCell(cols, rows), cols, j, i), t0, d0, r0);
      }
      BeforeRowEnd(LinkCell(cols, rows), cols, j);
      BeforeRowEnd(TriangleCell(cols, rows), cols, j);
    }

    /** The second loop of initGrid, over the laid-out cols x rows grid:
        every cell's constraints with their rest lengths, and its triangles,
        row by row. */
    method EmitTopology(cols: nat, rows: nat, sqrt: real -> real) returns (constraintCount: nat)
      requires Valid() && numDistanceConstraints == 0 && cols * rows <= maxParticles
      modifies distanceConstraints, restLengths, indices
      ensures Valid()
      ensures constraintCount == |GridLinks(cols, rows)| <= 6 * maxParticles
      ensures Pairs(distanceConstraints[..], 6 * maxParticles) ==
        GridLinks(cols, rows) + old(Pairs(distanceConstraints[..], 6 * maxParticles))[constraintCount..]
      ensures restLengths[..] == RestsOf(Positions(), GridLinks(cols, rows), sqrt) + old(restLengths[..])[constraintCount..]
      ensures |GridTriangles(cols, rows)| <= indices.Length
      ensures indices[..] == GridTriangles(cols, rows) + old(indices[..])[|GridTriangles(cols, rows)|..]
    {
      ghost var P := Positions();
      ghost var t0 := indices[..];
      ghost var d0 := Pairs(distanceConstraints[..], 6 * maxParticles);
      ghost var r0 := restLengths[..];
      GridFits(cols, rows, 0.0, Vec3(0.0, 0.0, 0.0), maxParticles);
      var indexCount := 0;
      constraintCount := 0;
      for j := 0 to rows
        invariant Positions() == P
        invariant Emitted(constraintCount, Rows(LinkCell(cols, rows), cols, j), P, sqrt, d0, r0)
        invariant Drawn(indexCount, Rows(TriangleCell(cols, rows), cols, j), t0)
      {
        constraintCount, indexCount := EmitRow(cols, rows, j, constraintCount, indexCount, sqrt, t0, d0, r0);
      }
      assert Links() == [];
    }

    /** initGrid: lays out a cols x rows sheet (the first loop), then emits
        its constraints over that layout and its triangles (the second);
        every stale constraint of an earlier grid is dropped. */
    method InitGrid(cols: nat, rows: nat, spacing: real, startPos: Vec3, sqrt: real -> real)
      requires Valid() && cols * rows <= maxParticles
      modifies this, pos, prevPos, vel, invMass, distanceConstraints, restLengths, indices
      ensures Valid() && this.cols == cols && this.rows == rows && numParticles == cols * rows
      ensures Particles().pos == GridPositions(cols, rows, spacing, startPos) + old(Particles()).pos[numParticles..]
      ensures Particles().prevPos == GridPositions(cols, rows, spacing, startPos) + old(Particles()).prevPos[numParticles..]
      ensures Particles().vel == Still(numParticles) + old(Particles()).vel[numParticles..]
      ensures Structure() == Body(GridInvMass(cols, rows) + old(invMass[..])[numParticles..], cols * rows,
                                  GridLinks(cols, rows), RestsOf(GridPositions(cols, rows, spacing, startPos), GridLinks(cols, rows), sqrt))
      ensures Pairs(distanceConstraints[..], 6 * maxParticles) ==
        GridLinks(cols, rows) + old(Pairs(distanceConstraints[..], 6 * maxParticles))[numDistanceConstraints..]
      ensures restLengths[..] ==
        RestsOf(GridPositions(cols, rows, spacing, startPos), GridLinks(cols, rows), sqrt) + old(restLengths[..])[numDistanceConstraints..]
      ensures |GridTriangles(cols, rows)| <= indices.Length
      ensures indices[..] == GridTriangles(cols, rows) + old(indices[..])[|GridTriangles(cols, rows)|..]
    {
      this.cols := cols;
      this.rows := rows;
      numParticles := cols * rows;
      numDistanceConstraints := 0;
      LayoutParticles(cols, rows, spacing, startPos);
      ghost var P := Particles().pos;
      var constraintCount := EmitTopology(cols, rows, sqrt);
      GridFits(cols, rows, spacing, startPos, maxParticles);
      LinksValid(cols, rows);
      RestsOfPrefix(P, numParticles, GridLinks(cols, rows), sqrt);
      numDistanceConstraints := constraintCount;
      ghost var links := GridLinks(cols, rows);
      assert Links() == links;
      forall k | 0 <= k < |links|
        ensures links[k].p1 < numParticles && links[k].p2 < numParticles
      {
        assert links[k] in links;
      }
    }
  }
}

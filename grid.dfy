/** The grid topology that initGrid lays out: a cols x rows sheet of particles,
    particle (i, j) (column i, row j) at index j * cols + i, with its distance
    constraints and render triangles. Everything initGrid writes is described
    here as what the grid's cells emit, visited in row-major order. */
module Grid {
  import opened Geometry

  /** A distance constraint between particles p1 and p2 (a pair of the
      distanceConstraints buffer). */
  datatype DistanceConstraint = DistanceConstraint(p1: nat, p2: nat)

  // ---------------------------------------------------------------------------
  // Row-major emission: cell (i, j) emits cell(i, j); the cells are visited
  // j = 0, 1, ... and within a row i = 0, 1, ..., exactly as the nested loops
  // `for j < rows { for i < cols { ... } }` visit them.
  // ---------------------------------------------------------------------------

  /** What cells (0, j), ..., (i - 1, j) emit. */
  function Row<T>(cell: (nat, nat) -> seq<T>, j: nat, i: nat): seq<T>
  {
    if i == 0 then [] else Row(cell, j, i - 1) + cell(i - 1, j)
  }

  /** What rows 0, ..., j - 1 of a grid with cols columns emit. */
  function Rows<T>(cell: (nat, nat) -> seq<T>, cols: nat, j: nat): seq<T>
  {
    if j == 0 then [] else Rows(cell, cols, j - 1) + Row(cell, j - 1, cols)
  }

  /** What the cells before (i, j) in row-major order emit. */
  function Before<T>(cell: (nat, nat) -> seq<T>, cols: nat, j: nat, i: nat): seq<T>
  {
    Rows(cell, cols, j) + Row(cell, j, i)
  }

  /** Visiting cell (i, j) appends what it emits. */
  lemma BeforeNext<T>(cell: (nat, nat) -> seq<T>, cols: nat, j: nat, i: nat)
    ensures Before(cell, cols, j, i + 1) == Before(cell, cols, j, i) + cell(i, j)
  {
  }

  /** Finishing row j is starting row j + 1. */
  lemma BeforeRowEnd<T>(cell: (nat, nat) -> seq<T>, cols: nat, j: nat)
    ensures Before(cell, cols, j, cols) == Rows(cell, cols, j + 1)
  {
  }

  lemma PrefixTrans<T>(a: seq<T>, b: seq<T>, c: seq<T>)
    requires a <= b && b <= c
    ensures a <= c
  {
    assert c[..|a|] == c[..|b|][..|a|];
  }

  lemma PrefixAppend<T>(a: seq<T>, b: seq<T>, c: seq<T>)
    requires b <= c
    ensures a + b <= a + c
  {
    assert (a + c)[..|a + b|] == a + c[..|b|];
  }

  lemma {:induction false} RowGrows<T>(cell: (nat, nat) -> seq<T>, j: nat, i: nat, k: nat)
    requires i <= k
    ensures Row(cell, j, i) <= Row(cell, j, k)
    decreases k
  {
    if i < k {
      RowGrows(cell, j, i, k - 1);
      PrefixTrans(Row(cell, j, i), Row(cell, j, k - 1), Row(cell, j, k));
    }
  }

  lemma {:induction false} RowsGrow<T>(cell: (nat, nat) -> seq<T>, cols: nat, j: nat, k: nat)
    requires j <= k
    ensures Rows(cell, cols, j) <= Rows(cell, cols, k)
    decreases k
  {
    if j < k {
      RowsGrow(cell, cols, j, k - 1);
      PrefixTrans(Rows(cell, cols, j), Rows(cell, cols, k - 1), Rows(cell, cols, k));
    }
  }

  /** What cell (i, j) emits follows what the cells before it emit, and both
      are a prefix of what the whole grid emits. */
  lemma CellInOrder<T>(cell: (nat, nat) -> seq<T>, cols: nat, rows: nat, i: nat, j: nat)
    requires i < cols && j < rows
    ensures Before(cell, cols, j, i) + cell(i, j) <= Rows(cell, cols, rows)
  {
    var before := Rows(cell, cols, j);
    assert Before(cell, cols, j, i) + cell(i, j) == before + Row(cell, j, i + 1);
    RowGrows(cell, j, i + 1, cols);
    PrefixAppend(before, Row(cell, j, i + 1), Row(cell, j, cols));
    RowsGrow(cell, cols, j + 1, rows);
    PrefixTrans(before + Row(cell, j, i + 1), Rows(cell, cols, j + 1), Rows(cell, cols, rows));
  }

  lemma {:induction false} RowLength<T>(cell: (nat, nat) -> seq<T>, size: nat, j: nat, i: nat)
    requires forall a: nat, b: nat :: |cell(a, b)| == size
    ensures |Row(cell, j, i)| == size * i
  {
    if i > 0 {
      RowLength(cell, size, j, i - 1);
      assert |cell(i - 1, j)| == size;
    }
  }

  lemma {:induction false} RowsLength<T>(cell: (nat, nat) -> seq<T>, cols: nat, size: nat, j: nat)
    requires forall a: nat, b: nat :: |cell(a, b)| == size
    ensures |Rows(cell, cols, j)| == size * (cols * j)
  {
    if j > 0 {
      RowsLength(cell, cols, size, j - 1);
      RowLength(cell, size, j - 1, cols);
      MulStep(cols, j);
      MulAdd(size, cols * (j - 1), cols);
    }
  }

  lemma {:induction false} RowBound<T>(cell: (nat, nat) -> seq<T>, size: nat, j: nat, i: nat)
    requires forall a: nat, b: nat :: |cell(a, b)| <= size
    ensures |Row(cell, j, i)| <= size * i
  {
    if i > 0 {
      RowBound(cell, size, j, i - 1);
      assert |cell(i - 1, j)| <= size;
    }
  }

  lemma {:induction false} RowsBound<T>(cell: (nat, nat) -> seq<T>, cols: nat, size: nat, j: nat)
    requires forall a: nat, b: nat :: |cell(a, b)| <= size
    ensures |Rows(cell, cols, j)| <= size * (cols * j)
  {
    if j > 0 {
      RowsBound(cell, cols, size, j - 1);
      RowBound(cell, size, j - 1, cols);
      MulStep(cols, j);
      MulAdd(size, cols * (j - 1), cols);
    }
  }

  /** When every cell emits `size` elements, cell (i, j) owns the slice that
      starts at size * (j * cols + i). */
  lemma UniformAt<T>(cell: (nat, nat) -> seq<T>, cols: nat, rows: nat, size: nat, i: nat, j: nat)
    requires forall a: nat, b: nat :: |cell(a, b)| == size
    requires i < cols && j < rows
    ensures |Rows(cell, cols, rows)| == size * (cols * rows)
    ensures size * (j * cols + i) + size <= |Rows(cell, cols, rows)|
    ensures Rows(cell, cols, rows)[size * (j * cols + i)..size * (j * cols + i) + size] == cell(i, j)
  {
    var all := Rows(cell, cols, rows);
    RowsLength(cell, cols, size, rows);
    RowsLength(cell, cols, size, j);
    RowLength(cell, size, j, i);
    CellInOrder(cell, cols, rows, i, j);
    var before := Before(cell, cols, j, i);
    assert |before| == size * (j * cols + i) by {
      MulAdd(size, cols * j, i);
      assert cols * j == j * cols;
    }
    var prefix := before + cell(i, j);
    assert all[..|prefix|] == prefix;
    assert all[|before|..|prefix|] == prefix[|before|..];
  }

  lemma {:induction false} RowMember<T>(cell: (nat, nat) -> seq<T>, j: nat, i: nat, x: T)
    requires x in Row(cell, j, i)
    ensures exists a: nat :: a < i && x in cell(a, j)
  {
    if x !in cell(i - 1, j) {
      RowMember(cell, j, i - 1, x);
    }
  }

  /** Whatever the grid emits, some cell of the grid emitted. */
  lemma {:induction false} RowsMember<T>(cell: (nat, nat) -> seq<T>, cols: nat, j: nat, x: T)
    requires x in Rows(cell, cols, j)
    ensures exists a: nat, b: nat :: a < cols && b < j && x in cell(a, b)
  {
    if x in Row(cell, j - 1, cols) {
      RowMember(cell, j - 1, cols, x);
    } else {
      RowsMember(cell, cols, j - 1, x);
    }
  }

  lemma {:induction false} NoColumns<T>(cell: (nat, nat) -> seq<T>, j: nat)
    ensures Rows(cell, 0, j) == []
  {
    if j > 0 {
      NoColumns(cell, j - 1);
    }
  }

  // ---------------------------------------------------------------------------
  // Arithmetic on grid indices
  // ---------------------------------------------------------------------------

  lemma MulAdd(a: int, b: int, c: int)
    ensures a * (b + c) == a * b + a * c
  {
  }

  lemma MulStep(a: int, b: nat)
    requires 0 < b
    ensures a * b == a * (b - 1) + a
  {
  }

  lemma MulComm(a: int, b: int)
    ensures a * b == b * a
  {
  }

  lemma MulSucc(a: int, b: int)
    ensures (a + 1) * b == a * b + b
  {
  }

  lemma MulMono(a: nat, b: nat, c: nat)
    requires a <= b
    ensures a * c <= b * c
  {
  }

  /** Cell (i, j) of the grid has a particle index below cols * rows. */
  lemma IndexInGrid(cols: nat, rows: nat, i: nat, j: nat)
    requires i < cols && j < rows
    ensures j * cols + i < cols * rows
    ensures (j + 1) * cols <= cols * rows
  {
    MulMono(j + 1, rows, cols);
  }

  /** Every particle index below cols * rows is the index of one cell. */
  lemma Decompose(cols: nat, rows: nat, p: nat) returns (i: nat, j: nat)
    requires p < cols * rows
    ensures i < cols && j < rows && p == j * cols + i
  {
    i, j := p % cols, p / cols;
    if rows <= j {
      MulMono(rows, j, cols);
    }
  }

  // ---------------------------------------------------------------------------
  // What initGrid lays out, cell by cell
  // ---------------------------------------------------------------------------

  /** The pinning rule: the particle in row 0 and the first or last column. */
  predicate Pinned(cols: nat, i: nat, j: nat)
  {
    j == 0 && (i == 0 || i == cols - 1)
  }

  /** The initial position of particle (i, j): a flat sheet at height origin.y,
      centred on the origin; cols / 2 and rows / 2 are real halves. */
  function GridPoint(cols: nat, rows: nat, spacing: real, origin: Vec3, i: nat, j: nat): Vec3
  {
    Vec3(origin.x + (i as real - cols as real / 2.0) * spacing,
     origin.y,
     origin.z + (j as real - rows as real / 2.0) * spacing)
  }

  function ParticleCell(cols: nat, rows: nat, spacing: real, origin: Vec3): (nat, nat) -> seq<Vec3>
  {
    (i: nat, j: nat) => [GridPoint(cols, rows, spacing, origin, i, j)]
  }

  /** The particle layout writes x at cell (i, j) exactly when x is the
      grid point there. */
  lemma ParticleCellIs(cols: nat, rows: nat, spacing: real, origin: Vec3, i: nat, j: nat, x: Vec3)
    requires x == Vec3(origin.x + (i as real - cols as real / 2.0) * spacing, origin.y, origin.z + (j as real - rows as real / 2.0) * spacing)
    ensures ParticleCell(cols, rows, spacing, origin)(i, j) == [x]
  {
  }

  function MassCell(cols: nat): (nat, nat) -> seq<real>
  {
    (i: nat, j: nat) => [if Pinned(cols, i, j) then 0.0 else 1.0]
  }

  /** The constraints cell (i, j) adds, in the order it adds them: horizontal,
      vertical, then the two shear diagonals, each only when its guard holds. */
  function CellLinks(cols: nat, rows: nat, i: nat, j: nat): seq<DistanceConstraint>
  {
    var id := j * cols + i;
    (if i < cols - 1 then [DistanceConstraint(id, id + 1)] else [])
    + (if j < rows - 1 then [DistanceConstraint(id, id + cols)] else [])
    + (if i < cols - 1 && j < rows - 1
       then [DistanceConstraint(id, id + cols + 1), DistanceConstraint(id + 1, id + cols)]
       else [])
  }

  function LinkCell(cols: nat, rows: nat): (nat, nat) -> seq<DistanceConstraint>
  {
    (i: nat, j: nat) => CellLinks(cols, rows, i, j)
  }

  /** The two render triangles of interior cell (i, j). */
  function CellTriangles(cols: nat, rows: nat, i: nat, j: nat): seq<nat>
  {
    var id := j * cols + i;
    if i < cols - 1 && j < rows - 1
    then [id, id + cols, id + 1, id + 1, id + cols, id + cols + 1]
    else []
  }

  function TriangleCell(cols: nat, rows: nat): (nat, nat) -> seq<nat>
  {
    (i: nat, j: nat) => CellTriangles(cols, rows, i, j)
  }

  function GridPositions(cols: nat, rows: nat, spacing: real, origin: Vec3): seq<Vec3>
  {
    Rows(ParticleCell(cols, rows, spacing, origin), cols, rows)
  }

  function GridInvMass(cols: nat, rows: nat): seq<real>
  {
    Rows(MassCell(cols), cols, rows)
  }

  function GridLinks(cols: nat, rows: nat): seq<DistanceConstraint>
  {
    Rows(LinkCell(cols, rows), cols, rows)
  }

  function GridTriangles(cols: nat, rows: nat): seq<nat>
  {
    Rows(TriangleCell(cols, rows), cols, rows)
  }

  /** The particles whose inverse mass is zero. */
  function PinnedSet(invMass: seq<real>): set<nat>
  {
    set p: nat | p < |invMass| && invMass[p] == 0.0
  }

  // ---------------------------------------------------------------------------
  // Properties of the layout
  // ---------------------------------------------------------------------------

  /** Particle (i, j) sits at index j * cols + i, at GridPoint(i, j). */
  lemma GridPointAt(cols: nat, rows: nat, spacing: real, origin: Vec3, i: nat, j: nat)
    requires i < cols && j < rows
    ensures |GridPositions(cols, rows, spacing, origin)| == cols * rows
    ensures j * cols + i < cols * rows
    ensures GridPositions(cols, rows, spacing, origin)[j * cols + i] == GridPoint(cols, rows, spacing, origin, i, j)
  {
    var cell := ParticleCell(cols, rows, spacing, origin);
    UniformAt(cell, cols, rows, 1, i, j);
    var s := Rows(cell, cols, rows);
    var k := j * cols + i;
    assert s[k..k + 1] == [GridPoint(cols, rows, spacing, origin, i, j)];
    assert s[k] == s[k..k + 1][0];
  }

  /** Inverse mass of particle (i, j): 0 exactly when the pinning rule holds, 1 otherwise. */
  lemma PinningRule(cols: nat, rows: nat, i: nat, j: nat)
    requires i < cols && j < rows
    ensures |GridInvMass(cols, rows)| == cols * rows
    ensures j * cols + i < cols * rows
    ensures GridInvMass(cols, rows)[j * cols + i] == if Pinned(cols, i, j) then 0.0 else 1.0
  {
    UniformAt(MassCell(cols), cols, rows, 1, i, j);
    var s := GridInvMass(cols, rows);
    var k := j * cols + i;
    assert s[k..k + 1] == MassCell(cols)(i, j);
    assert s[k] == s[k..k + 1][0];
  }

  /** Exactly the two top corners are pinned (one particle when cols == 1). */
  lemma PinnedCorners(cols: nat, rows: nat)
    requires 1 <= cols && 1 <= rows
    ensures PinnedSet(GridInvMass(cols, rows)) == {0, cols - 1}
    ensures |PinnedSet(GridInvMass(cols, rows))| == if cols >= 2 then 2 else 1
    ensures forall p :: 0 <= p < |GridInvMass(cols, rows)| ==> GridInvMass(cols, rows)[p] == 0.0 || GridInvMass(cols, rows)[p] == 1.0
  {
    var w := GridInvMass(cols, rows);
    PinningRule(cols, rows, 0, 0);
    forall p: nat | p < |w|
      ensures (w[p] == 0.0 <==> p == 0 || p == cols - 1) && (w[p] == 0.0 || w[p] == 1.0)
    {
      var i, j := Decompose(cols, rows, p);
      PinningRule(cols, rows, i, j);
      if j > 0 {
        MulMono(1, j, cols);
      }
    }
    PinningRule(cols, rows, cols - 1, 0);
    assert PinnedSet(w) == {0, cols - 1};
    if cols >= 2 {
      assert {0, cols - 1} == {0} + {cols - 1};
    }
  }

  lemma CellLinksValid(cols: nat, rows: nat, i: nat, j: nat)
    requires i < cols && j < rows
    ensures forall l :: l in CellLinks(cols, rows, i, j) ==>
      l.p1 != l.p2 && l.p1 < cols * rows && l.p2 < cols * rows
  {
    IndexInGrid(cols, rows, i, j);
    if j < rows - 1 {
      IndexInGrid(cols, rows, i, j + 1);
    }
    if i < cols - 1 && j < rows - 1 {
      IndexInGrid(cols, rows, i + 1, j + 1);
    }
  }

  // StructuralLinks, ShearLinks and TrianglesAt restate CellLinks and
  // CellTriangles around a given particle id and given guards (CellSplit
  // proves them equal). The emission methods are specified through them so
  // that their proofs never reason about the product j * cols.

  /** The structural constraints of the cell whose particle is id:
      horizontal and vertical, each when its guard holds. */
  function StructuralLinks(id: nat, cols: nat, horizontal: bool, vertical: bool): seq<DistanceConstraint>
  {
    (if horizontal then [DistanceConstraint(id, id + 1)] else [])
    + (if vertical then [DistanceConstraint(id, id + cols)] else [])
  }

  /** The shear constraints of the cell whose particle is id: both diagonals
      of an interior cell. */
  function ShearLinks(id: nat, cols: nat, interior: bool): seq<DistanceConstraint>
  {
    if interior then [DistanceConstraint(id, id + cols + 1), DistanceConstraint(id + 1, id + cols)] else []
  }

  /** The render triangles of the cell whose particle is id. */
  function TrianglesAt(id: nat, cols: nat, interior: bool): seq<nat>
  {
    if interior then [id, id + cols, id + 1, id + 1, id + cols, id + cols + 1] else []
  }

  /** Cell (i, j) emits its structural constraints, then its shear
      constraints, and its triangles, all around particle j * cols + i. */
  lemma CellSplit(cols: nat, rows: nat, i: nat, j: nat)
    ensures CellLinks(cols, rows, i, j) ==
      StructuralLinks(j * cols + i, cols, i < cols - 1, j < rows - 1) + ShearLinks(j * cols + i, cols, i < cols - 1 && j < rows - 1)
    ensures CellTriangles(cols, rows, i, j) == TrianglesAt(j * cols + i, cols, i < cols - 1 && j < rows - 1)
  {
  }

  /** The particle indices cell (i, j) uses are in the grid; stated without
      products beyond the one naming the cell. */
  lemma CellCorners(cols: nat, rows: nat, i: nat, j: nat)
    requires i < cols && j < rows
    ensures 0 <= j * cols && j * cols + i < cols * rows
    ensures i < cols - 1 ==> j * cols + i + 1 < cols * rows
    ensures j < rows - 1 ==> j * cols + i + cols < cols * rows
    ensures i < cols - 1 && j < rows - 1 ==> j * cols + i + cols + 1 < cols * rows
  {
    IndexInGrid(cols, rows, i, j);
    if j < rows - 1 {
      IndexInGrid(cols, rows, i, j + 1);
      MulSucc(j, cols);
    }
    if i < cols - 1 && j < rows - 1 {
      IndexInGrid(cols, rows, i + 1, j + 1);
    }
  }

  /** Every constraint joins two distinct particles of the grid. */
  lemma LinksValid(cols: nat, rows: nat)
    ensures forall l :: l in GridLinks(cols, rows) ==>
      l.p1 != l.p2 && l.p1 < cols * rows && l.p2 < cols * rows
  {
    forall l | l in GridLinks(cols, rows)
      ensures l.p1 != l.p2 && l.p1 < cols * rows && l.p2 < cols * rows
    {
      RowsMember(LinkCell(cols, rows), cols, rows, l);
      var i: nat, j: nat :| i < cols && j < rows && l in LinkCell(cols, rows)(i, j);
      CellLinksValid(cols, rows, i, j);
    }
  }

  /** Every triangle index names a particle of the grid. */
  lemma TrianglesValid(cols: nat, rows: nat)
    ensures forall x :: x in GridTriangles(cols, rows) ==> x < cols * rows
  {
    forall x: nat | x in GridTriangles(cols, rows)
      ensures x < cols * rows
    {
      RowsMember(TriangleCell(cols, rows), cols, rows, x);
      var i: nat, j: nat :| i < cols && j < rows && x in TriangleCell(cols, rows)(i, j);
      IndexInGrid(cols, rows, i + 1, j + 1);
    }
  }

  lemma {:induction false} LinkRowLength(cols: nat, rows: nat, j: nat, i: nat)
    requires 1 <= cols && i <= cols
    ensures |Row(LinkCell(cols, rows), j, i)| ==
      if j < rows - 1 then (if i < cols then 4 * i else 4 * cols - 3)
      else (if i < cols then i else cols - 1)
  {
    if i > 0 {
      LinkRowLength(cols, rows, j, i - 1);
      assert |LinkCell(cols, rows)(i - 1, j)| == |CellLinks(cols, rows, i - 1, j)|;
    }
  }

  lemma {:induction false} LinkRowsLength(cols: nat, rows: nat, j: nat)
    requires 1 <= cols && 1 <= rows && j <= rows
    ensures |Rows(LinkCell(cols, rows), cols, j)| ==
      if j < rows then j * (4 * cols - 3) else (rows - 1) * (4 * cols - 3) + cols - 1
  {
    if j > 0 {
      var k := 4 * cols - 3;
      LinkRowsLength(cols, rows, j - 1);
      LinkRowLength(cols, rows, j - 1, cols);
      assert |Rows(LinkCell(cols, rows), cols, j - 1)| == (j - 1) * k;
      if j < rows {
        assert |Row(LinkCell(cols, rows), j - 1, cols)| == k;
        assert (j - 1) * k + k == j * k;
      } else {
        assert |Row(LinkCell(cols, rows), j - 1, cols)| == cols - 1;
      }
    }
  }

  /** The number of constraints initGrid emits:
      (cols - 1) * rows + (rows - 1) * cols + 2 * (cols - 1) * (rows - 1). */
  lemma LinkCount(cols: nat, rows: nat)
    ensures cols == 0 || rows == 0 ==> GridLinks(cols, rows) == []
    ensures 1 <= cols && 1 <= rows ==>
      |GridLinks(cols, rows)| == (cols - 1) * rows + (rows - 1) * cols + 2 * (cols - 1) * (rows - 1)
  {
    if cols == 0 {
      NoColumns(LinkCell(cols, rows), rows);
    } else if rows > 0 {
      LinkRowsLength(cols, rows, rows);
      LinkArith(cols, rows);
    }
  }

  lemma LinkArith(cols: nat, rows: nat)
    requires 1 <= cols && 1 <= rows
    ensures (rows - 1) * (4 * cols - 3) + cols - 1 == (cols - 1) * rows + (rows - 1) * cols + 2 * (cols - 1) * (rows - 1)
  {
    var c, r := cols - 1, rows - 1;
    assert (rows - 1) * (4 * cols - 3) == 4 * r * c + r;
    assert (cols - 1) * rows == c * r + c;
    assert (rows - 1) * cols == r * c + r;
  }

  /** Where the constraints of cell (i, j) start in the constraint buffer. */
  function LinkOffset(cols: nat, rows: nat, i: nat, j: nat): int
  {
    j * (4 * cols - 3) + (if j < rows - 1 then 4 * i else i)
  }

  /** The constraints of cell (i, j) appear at LinkOffset(i, j), in CellLinks order. */
  lemma LinkOrder(cols: nat, rows: nat, i: nat, j: nat)
    requires i < cols && j < rows
    ensures 0 <= LinkOffset(cols, rows, i, j)
    ensures LinkOffset(cols, rows, i, j) + |CellLinks(cols, rows, i, j)| <= |GridLinks(cols, rows)|
    ensures GridLinks(cols, rows)[LinkOffset(cols, rows, i, j)..LinkOffset(cols, rows, i, j) + |CellLinks(cols, rows, i, j)|]
            == CellLinks(cols, rows, i, j)
  {
    var cell := LinkCell(cols, rows);
    LinkRowsLength(cols, rows, j);
    LinkRowLength(cols, rows, j, i);
    CellInOrder(cell, cols, rows, i, j);
    var before := Before(cell, cols, j, i);
    var prefix := before + cell(i, j);
    var all := GridLinks(cols, rows);
    assert all[..|prefix|] == prefix;
    assert all[|before|..|prefix|] == prefix[|before|..];
  }

  lemma {:induction false} TriangleRowLength(cols: nat, rows: nat, j: nat, i: nat)
    requires 1 <= cols && i <= cols
    ensures |Row(TriangleCell(cols, rows), j, i)| ==
      if j < rows - 1 then 6 * (if i < cols then i else cols - 1) else 0
  {
    if i > 0 {
      TriangleRowLength(cols, rows, j, i - 1);
      assert |TriangleCell(cols, rows)(i - 1, j)| == |CellTriangles(cols, rows, i - 1, j)|;
    }
  }

  lemma {:induction false} TriangleRowsLength(cols: nat, rows: nat, j: nat)
    requires 1 <= cols && 1 <= rows && j <= rows
    ensures |Rows(TriangleCell(cols, rows), cols, j)| == 6 * ((cols - 1) * (if j < rows then j else rows - 1))
  {
    if j > 0 {
      TriangleRowsLength(cols, rows, j - 1);
      TriangleRowLength(cols, rows, j - 1, cols);
    }
  }

  /** initGrid writes exactly 6 * (cols - 1) * (rows - 1) triangle indices. */
  lemma TriangleCount(cols: nat, rows: nat)
    ensures cols == 0 || rows == 0 ==> GridTriangles(cols, rows) == []
    ensures 1 <= cols && 1 <= rows ==> |GridTriangles(cols, rows)| == 6 * ((cols - 1) * (rows - 1))
  {
    if cols == 0 {
      NoColumns(TriangleCell(cols, rows), rows);
    } else if rows > 0 {
      TriangleRowsLength(cols, rows, rows);
    }
  }

  /** The two triangles of interior cell (i, j) sit at 6 * ((cols - 1) * j + i). */
  lemma TriangleOrder(cols: nat, rows: nat, i: nat, j: nat)
    requires i < cols - 1 && j < rows - 1
    ensures 6 * ((cols - 1) * j + i) + 6 <= |GridTriangles(cols, rows)|
    ensures GridTriangles(cols, rows)[6 * ((cols - 1) * j + i)..6 * ((cols - 1) * j + i) + 6]
            == [j * cols + i, j * cols + i + cols, j * cols + i + 1,
                j * cols + i + 1, j * cols + i + cols, j * cols + i + cols + 1]
  {
    var cell := TriangleCell(cols, rows);
    TriangleRowsLength(cols, rows, j);
    TriangleRowLength(cols, rows, j, i);
    CellInOrder(cell, cols, rows, i, j);
    var before := Before(cell, cols, j, i);
    assert |before| == 6 * ((cols - 1) * j + i);
    var prefix := before + cell(i, j);
    var all := GridTriangles(cols, rows);
    assert all[..|prefix|] == prefix;
    assert all[|before|..|prefix|] == prefix[|before|..];
  }

  lemma LinkCellBound(cols: nat, rows: nat)
    ensures forall a: nat, b: nat :: |LinkCell(cols, rows)(a, b)| <= 4
  {
    forall a: nat, b: nat
      ensures |LinkCell(cols, rows)(a, b)| <= 4
    {
      assert LinkCell(cols, rows)(a, b) == CellLinks(cols, rows, a, b);
    }
  }

  lemma TriangleCellBound(cols: nat, rows: nat)
    ensures forall a: nat, b: nat :: |TriangleCell(cols, rows)(a, b)| <= 6
  {
    forall a: nat, b: nat
      ensures |TriangleCell(cols, rows)(a, b)| <= 6
    {
      assert TriangleCell(cols, rows)(a, b) == CellTriangles(cols, rows, a, b);
    }
  }

  /** A grid of at most maxParticles particles fits the buffers the solver
      allocates for maxParticles: one point per particle, 6 constraints and
      6 triangle indices per particle. */
  lemma GridFits(cols: nat, rows: nat, spacing: real, origin: Vec3, maxParticles: nat)
    requires cols * rows <= maxParticles
    ensures |GridPositions(cols, rows, spacing, origin)| == cols * rows <= maxParticles
    ensures |GridInvMass(cols, rows)| == cols * rows
    ensures |GridLinks(cols, rows)| <= 4 * (cols * rows) <= 6 * maxParticles
    ensures |GridTriangles(cols, rows)| <= 6 * (cols * rows) <= 6 * maxParticles
  {
    RowsLength(ParticleCell(cols, rows, spacing, origin), cols, 1, rows);
    RowsLength(MassCell(cols), cols, 1, rows);
    LinkCellBound(cols, rows);
    RowsBound(LinkCell(cols, rows), cols, 4, rows);
    TriangleCellBound(cols, rows);
    RowsBound(TriangleCell(cols, rows), cols, 6, rows);
  }

  // ---------------------------------------------------------------------------
  // Rest lengths
  // ---------------------------------------------------------------------------

  /** The rest length addConstraint records for constraint l over positions
      pos: the distance between its endpoints at that moment (0.0 for an
      endpoint outside pos, which no grid constraint has, see LinksValid). */
  function RestLength(pos: seq<Vec3>, l: DistanceConstraint, sqrt: real -> real): real
  {
    if l.p1 < |pos| && l.p2 < |pos| then Distance(sqrt, pos[l.p1], pos[l.p2]) else 0.0
  }

  /** The rest lengths of a sequence of constraints, one each, in order. */
  function RestsOf(pos: seq<Vec3>, links: seq<DistanceConstraint>, sqrt: real -> real): (r: seq<real>)
    ensures |r| == |links|
    ensures forall k :: 0 <= k < |links| ==> r[k] == RestLength(pos, links[k], sqrt)
  {
    seq(|links|, (k: int) requires 0 <= k < |links| => RestLength(pos, links[k], sqrt))
  }

  /** One more constraint, one more rest length. */
  lemma RestsSnoc(pos: seq<Vec3>, links: seq<DistanceConstraint>, l: DistanceConstraint, sqrt: real -> real)
    ensures RestsOf(pos, links + [l], sqrt) == RestsOf(pos, links, sqrt) + [RestLength(pos, l, sqrt)]
  {
  }

  /** Rest lengths only look at the endpoints: positions past every endpoint
      do not matter. */
  lemma RestsOfPrefix(pos: seq<Vec3>, n: nat, links: seq<DistanceConstraint>, sqrt: real -> real)
    requires n <= |pos|
    requires forall l :: l in links ==> l.p1 < n && l.p2 < n
    ensures RestsOf(pos, links, sqrt) == RestsOf(pos[..n], links, sqrt)
  {
    forall k | 0 <= k < |links|
      ensures RestLength(pos, links[k], sqrt) == RestLength(pos[..n], links[k], sqrt)
    {
      assert links[k] in links;
    }
  }

  /** With a true square root, every rest length of the grid is a length: it
      is non-negative and its square is the squared distance between the
      endpoints as laid out. */
  lemma RestLengthsMeasure(cols: nat, rows: nat, spacing: real, origin: Vec3, sqrt: real -> real)
    requires IsSqrt(sqrt)
    ensures var pos := GridPositions(cols, rows, spacing, origin);
      var links := GridLinks(cols, rows);
      var rest := RestsOf(pos, links, sqrt);
      forall k :: 0 <= k < |links| ==>
        links[k].p1 < |pos| && links[k].p2 < |pos| &&
        0.0 <= rest[k] && rest[k] * rest[k] == SquaredDistance(pos[links[k].p1], pos[links[k].p2])
  {
    var pos := GridPositions(cols, rows, spacing, origin);
    var links := GridLinks(cols, rows);
    GridFits(cols, rows, spacing, origin, cols * rows);
    LinksValid(cols, rows);
    forall k | 0 <= k < |links|
      ensures links[k].p1 < |pos| && links[k].p2 < |pos|
      ensures 0.0 <= SquaredDistance(pos[links[k].p1], pos[links[k].p2])
    {
      assert links[k] in links;
      SquaresNonNegative(pos[links[k].p1], pos[links[k].p2]);
    }
  }

  lemma SquaresNonNegative(a: Vec3, b: Vec3)
    ensures 0.0 <= SquaredDistance(a, b)
  {
    var dx := a.x - b.x;
    var dy := a.y - b.y;
    var dz := a.z - b.z;
    assert 0.0 <= dx * dx && 0.0 <= dy * dy && 0.0 <= dz * dz;
  }
}

/** The grid plane: a flat rectangle in the y = 0 plane, cut into
    `xdivs` by `zdivs` cells, each cell drawn as two triangles.  The
    constructor fills position, normal, texture-coordinate and index
    arrays with nested loops and hands them to the GPU. */
module Planes {
  import opened CInt
  import opened Layout

  const IntMax: int := 0x7FFF_FFFF

  /** The constructor's arguments (`smax` and `tmax` default to 1). */
  datatype PlaneParams = PlaneParams(xsize: real, zsize: real, xdivs: int, zdivs: int, smax: real, tmax: real)

  /** Positive division counts, and array sizes that fit the `int`
      arithmetic the constructor does them in. */
  predicate Buildable(p: PlaneParams)
  {
    p.xdivs > 0 && p.zdivs > 0 &&
    3 * ((p.zdivs + 1) * (p.xdivs + 1)) <= IntMax && 6 * (p.zdivs * p.xdivs) <= IntMax
  }

  /** Number of grid vertices, row by row. */
  function VertexCount(p: PlaneParams): nat
    requires Buildable(p)
  {
    (p.zdivs + 1) * (p.xdivs + 1)
  }

  /** Coordinate number k along an axis divided in steps of `factor`,
      shifted by `half`: x of column k or z of row k. */
  function Coord(factor: real, half: real, k: nat): real
  {
    factor * k as real - half
  }

  /** Texture coordinate number k along an axis, in steps of `factor`. */
  function Scaled(k: nat, factor: real): real
  {
    k as real * factor
  }

  /** The distance between neighbouring columns and rows, and the
      texture-coordinate steps along them. */
  function ColumnStep(p: PlaneParams): real
    requires Buildable(p)
  {
    p.xsize / p.xdivs as real
  }

  function RowStep(p: PlaneParams): real
    requires Buildable(p)
  {
    p.zsize / p.zdivs as real
  }

  function SStep(p: PlaneParams): real
    requires Buildable(p)
  {
    p.smax / p.zdivs as real
  }

  function TStep(p: PlaneParams): real
    requires Buildable(p)
  {
    p.tmax / p.xdivs as real
  }

  /** x of column j and z of row i: the grid is centred on the origin. */
  function ColumnX(p: PlaneParams, j: nat): real
    requires Buildable(p)
  {
    Coord(ColumnStep(p), p.xsize / 2.0, j)
  }

  function RowZ(p: PlaneParams, i: nat): real
    requires Buildable(p)
  {
    Coord(RowStep(p), p.zsize / 2.0, i)
  }

  /** The three floats of vertex (i, j). */
  function PositionOf(p: PlaneParams, i: nat, j: nat): seq<real>
    requires Buildable(p)
  {
    [ColumnX(p, j), 0.0, RowZ(p, i)]
  }

  /** The texture coordinate of vertex (i, j): the column is scaled by
      `smax / zdivs` and the row by `tmax / xdivs` (the divisors are those
      of the other axis). */
  function TexCoordOf(p: PlaneParams, i: nat, j: nat): seq<real>
    requires Buildable(p)
  {
    [Scaled(j, SStep(p)), Scaled(i, TStep(p))]
  }

  /** The six indices of the cell at column j between the rows starting
      at vertices r and n: triangles (r+j, n+j, n+j+1) and
      (r+j, n+j+1, r+j+1). */
  function Quad(r: nat, n: nat, j: nat): seq<nat>
  {
    [r + j, n + j, n + j + 1, r + j, n + j + 1, r + j + 1]
  }

  /** Cell (i, j): rows i and i + 1 start at vertices i (xdivs + 1) and
      (i + 1)(xdivs + 1). */
  function CellOf(p: PlaneParams, i: nat, j: nat): seq<nat>
    requires Buildable(p)
  {
    Quad(i * (p.xdivs + 1), (i + 1) * (p.xdivs + 1), j)
  }

  /** Every normal is the y axis. */
  const Up: seq<real> := [0.0, 1.0, 0.0]

  /** The vertices of one row, column by column: positions at height z
      and texture coordinates with second component t. */
  function ColumnPositions(jFactor: real, x2: real, z: real): nat -> seq<real>
  {
    (j: nat) => [Coord(jFactor, x2, j), 0.0, z]
  }

  function ColumnTexCoords(texi: real, t: real): nat -> seq<real>
  {
    (j: nat) => [Scaled(j, texi), t]
  }

  /** Row i of each array: its xdivs + 1 vertices, or its xdivs cells. */
  function PositionGen(p: PlaneParams, i: nat): nat -> seq<real>
    requires Buildable(p)
  {
    ColumnPositions(ColumnStep(p), p.xsize / 2.0, RowZ(p, i))
  }

  function TexCoordGen(p: PlaneParams, i: nat): nat -> seq<real>
    requires Buildable(p)
  {
    ColumnTexCoords(SStep(p), Scaled(i, TStep(p)))
  }

  function UpGen(): nat -> seq<real>
  {
    (j: nat) => Up
  }

  function QuadGen(r: nat, n: nat): nat -> seq<nat>
  {
    (j: nat) => Quad(r, n, j)
  }

  function PositionRow(p: PlaneParams, i: nat): seq<real>
    requires Buildable(p)
  {
    Concat(PositionGen(p, i), p.xdivs + 1)
  }

  function TexCoordRow(p: PlaneParams, i: nat): seq<real>
    requires Buildable(p)
  {
    Concat(TexCoordGen(p, i), p.xdivs + 1)
  }

  function NormalRow(p: PlaneParams): seq<real>
    requires Buildable(p)
  {
    Concat(UpGen(), p.xdivs + 1)
  }

  function ElementRow(p: PlaneParams, i: nat): seq<nat>
    requires Buildable(p)
  {
    Concat(QuadGen(i * (p.xdivs + 1), (i + 1) * (p.xdivs + 1)), p.xdivs)
  }

  function PositionRowGen(p: PlaneParams): nat -> seq<real>
    requires Buildable(p)
  {
    (i: nat) => PositionRow(p, i)
  }

  function TexCoordRowGen(p: PlaneParams): nat -> seq<real>
    requires Buildable(p)
  {
    (i: nat) => TexCoordRow(p, i)
  }

  function NormalRowGen(p: PlaneParams): nat -> seq<real>
    requires Buildable(p)
  {
    (i: nat) => NormalRow(p)
  }

  function ElementRowGen(p: PlaneParams): nat -> seq<nat>
    requires Buildable(p)
  {
    (i: nat) => ElementRow(p, i)
  }

  /** The four arrays the constructor fills: zdivs + 1 rows of xdivs + 1
      vertices, and zdivs rows of xdivs cells. */
  function Positions(p: PlaneParams): seq<real>
    requires Buildable(p)
  {
    Concat(PositionRowGen(p), p.zdivs + 1)
  }

  function Normals(p: PlaneParams): seq<real>
    requires Buildable(p)
  {
    Concat(NormalRowGen(p), p.zdivs + 1)
  }

  function TexCoords(p: PlaneParams): seq<real>
    requires Buildable(p)
  {
    Concat(TexCoordRowGen(p), p.zdivs + 1)
  }

  function Elements(p: PlaneParams): seq<nat>
    requires Buildable(p)
  {
    Concat(ElementRowGen(p), p.zdivs)
  }

  /** Each row holds 3, 3 and 2 floats per vertex and 6 indices per cell. */
  lemma VertexRowLengths(p: PlaneParams)
    requires Buildable(p)
    ensures Uniform(PositionRowGen(p), 3 * (p.xdivs + 1)) && Uniform(NormalRowGen(p), 3 * (p.xdivs + 1))
    ensures Uniform(TexCoordRowGen(p), 2 * (p.xdivs + 1))
  {
    forall i: nat
      ensures |PositionRow(p, i)| == 3 * (p.xdivs + 1) && |TexCoordRow(p, i)| == 2 * (p.xdivs + 1)
    {
      ConcatLength(PositionGen(p, i), p.xdivs + 1, 3);
      ConcatLength(TexCoordGen(p, i), p.xdivs + 1, 2);
    }
    ConcatLength(UpGen(), p.xdivs + 1, 3);
  }

  lemma ElementRowLengths(p: PlaneParams)
    requires Buildable(p)
    ensures Uniform(ElementRowGen(p), 6 * p.xdivs)
  {
    forall i: nat
      ensures |ElementRow(p, i)| == 6 * p.xdivs
    {
      ConcatLength(QuadGen(i * (p.xdivs + 1), (i + 1) * (p.xdivs + 1)), p.xdivs, 6);
    }
  }

  /** The arrays hold 3, 3 and 2 floats per vertex and 6 indices per
      cell: the sizes the constructor allocates. */
  lemma Lengths(p: PlaneParams)
    requires Buildable(p)
    ensures |Positions(p)| == 3 * VertexCount(p) && |Normals(p)| == 3 * VertexCount(p)
    ensures |TexCoords(p)| == 2 * VertexCount(p) && |Elements(p)| == 6 * (p.zdivs * p.xdivs)
  {
    var rows, cols := p.zdivs + 1, p.xdivs + 1;
    VertexRowLengths(p);
    ElementRowLengths(p);
    ConcatLength(PositionRowGen(p), rows, 3 * cols);
    ConcatLength(NormalRowGen(p), rows, 3 * cols);
    ConcatLength(TexCoordRowGen(p), rows, 2 * cols);
    ConcatLength(ElementRowGen(p), p.zdivs, 6 * p.xdivs);
    ScaleComm(3, cols, rows);
    ScaleComm(2, cols, rows);
    ScaleComm(6, p.xdivs, p.zdivs);
  }

  /** Vertex (i, j) is vertex number m = i (xdivs + 1) + j of the grid,
      and 3 m and 2 m are where its groups of three and two floats start. */
  lemma VertexNumber(p: PlaneParams, i: nat, j: nat, m: nat)
    requires Buildable(p) && i <= p.zdivs && j <= p.xdivs && m == i * (p.xdivs + 1) + j
    ensures m < VertexCount(p)
    ensures 3 * m == 3 * (p.xdivs + 1) * i + 3 * j && 2 * m == 2 * (p.xdivs + 1) * i + 2 * j
  {
    var rows, cols := p.zdivs + 1, p.xdivs + 1;
    MulMono(i + 1, rows, cols);
    MulSucc(i, cols);
    ScaleComm(3, cols, i);
    ScaleComm(2, cols, i);
  }

  /** Vertex m = i (xdivs + 1) + j has position (x of column j, 0, z of
      row i): its three floats sit at 3 m. */
  lemma PositionAt(p: PlaneParams, i: nat, j: nat, m: nat)
    requires Buildable(p) && i <= p.zdivs && j <= p.xdivs && m == i * (p.xdivs + 1) + j
    ensures m < VertexCount(p)
    ensures 3 * m + 3 <= |Positions(p)| && Positions(p)[3 * m..3 * m + 3] == PositionOf(p, i, j)
  {
    VertexNumber(p, i, j, m);
    VertexRowLengths(p);
    ConcatGroupOfGroup(PositionRowGen(p), p.zdivs + 1, 3 * (p.xdivs + 1), i, PositionGen(p, i), p.xdivs + 1, 3, j);
  }

  /** Vertex m has the normal (0, 1, 0) at 3 m. */
  lemma NormalAt(p: PlaneParams, i: nat, j: nat, m: nat)
    requires Buildable(p) && i <= p.zdivs && j <= p.xdivs && m == i * (p.xdivs + 1) + j
    ensures m < VertexCount(p)
    ensures 3 * m + 3 <= |Normals(p)| && Normals(p)[3 * m..3 * m + 3] == Up
  {
    VertexNumber(p, i, j, m);
    VertexRowLengths(p);
    ConcatGroupOfGroup(NormalRowGen(p), p.zdivs + 1, 3 * (p.xdivs + 1), i, UpGen(), p.xdivs + 1, 3, j);
  }

  /** Vertex m has texture coordinate (j smax / zdivs, i tmax / xdivs) at
      2 m. */
  lemma TexCoordAt(p: PlaneParams, i: nat, j: nat, m: nat)
    requires Buildable(p) && i <= p.zdivs && j <= p.xdivs && m == i * (p.xdivs + 1) + j
    ensures m < VertexCount(p)
    ensures 2 * m + 2 <= |TexCoords(p)| && TexCoords(p)[2 * m..2 * m + 2] == TexCoordOf(p, i, j)
  {
    VertexNumber(p, i, j, m);
    VertexRowLengths(p);
    ConcatGroupOfGroup(TexCoordRowGen(p), p.zdivs + 1, 2 * (p.xdivs + 1), i, TexCoordGen(p, i), p.xdivs + 1, 2, j);
  }

  /** Cell (i, j) is cell number m = i xdivs + j, and its six indices
      start at 6 m. */
  lemma CellNumber(p: PlaneParams, i: nat, j: nat, m: nat)
    requires Buildable(p) && i < p.zdivs && j < p.xdivs && m == i * p.xdivs + j
    ensures m < p.zdivs * p.xdivs && 6 * m == 6 * p.xdivs * i + 6 * j
    ensures 0 <= 6 * p.xdivs * i && 0 <= i * (p.xdivs + 1) && 0 <= (i + 1) * (p.xdivs + 1)
  {
    MulMono(i + 1, p.zdivs, p.xdivs);
    MulSucc(i, p.xdivs);
    ScaleComm(6, p.xdivs, i);
    MulNonneg(6 * p.xdivs, i);
    MulNonneg(i, p.xdivs + 1);
    MulNonneg(i + 1, p.xdivs + 1);
  }

  /** Cell m = i xdivs + j: its six indices sit at 6 m and are
      CellOf(p, i, j). */
  lemma CellAt(p: PlaneParams, i: nat, j: nat, m: nat)
    requires Buildable(p) && i < p.zdivs && j < p.xdivs && m == i * p.xdivs + j
    ensures 6 * m + 6 <= |Elements(p)| && Elements(p)[6 * m..6 * m + 6] == CellOf(p, i, j)
  {
    CellNumber(p, i, j, m);
    ElementRowLengths(p);
    ConcatGroupOfGroup(ElementRowGen(p), p.zdivs, 6 * p.xdivs, i, QuadGen(i * (p.xdivs + 1), (i + 1) * (p.xdivs + 1)), p.xdivs, 6, j);
  }

  /** The largest index of cell (i, j), n + j + 1, names a vertex of
      the grid, and the grid's vertex count fits an `int`. */
  lemma CellBounds(p: PlaneParams, i: nat, j: nat)
    requires Buildable(p) && i < p.zdivs && j < p.xdivs
    ensures (i + 1) * (p.xdivs + 1) == i * (p.xdivs + 1) + (p.xdivs + 1)
    ensures (i + 1) * (p.xdivs + 1) + j + 1 < VertexCount(p) <= IntMax
  {
    var cols := p.xdivs + 1;
    MulMono(i + 2, p.zdivs + 1, cols);
    assert (i + 2) * cols == (i + 1) * cols + cols;
  }

  /** Every index of row i of the cells names a vertex of the grid. */
  lemma RowInRange(p: PlaneParams, i: nat)
    requires Buildable(p) && i < p.zdivs
    ensures forall e :: e in ElementRow(p, i) ==> e < VertexCount(p)
  {
    var qg := QuadGen(i * (p.xdivs + 1), (i + 1) * (p.xdivs + 1));
    forall e: nat | e in ElementRow(p, i)
      ensures e < VertexCount(p)
    {
      ConcatMember<nat>(qg, p.xdivs, e);
      var j: nat :| j < p.xdivs && e in qg(j);
      CellBounds(p, i, j);
    }
  }

  /** Every index the element array holds names one of the grid's
      vertices, so every triangle drawn is made of uploaded vertices. */
  lemma ElementsInRange(p: PlaneParams)
    requires Buildable(p)
    ensures forall e :: e in Elements(p) ==> e < VertexCount(p)
  {
    forall e: nat | e in Elements(p)
      ensures e < VertexCount(p)
    {
      ConcatMember<nat>(ElementRowGen(p), p.zdivs, e);
      var i: nat :| i < p.zdivs && e in ElementRowGen(p)(i);
      RowInRange(p, i);
    }
  }

  /** The grid spans [-xsize/2, xsize/2] along x and [-zsize/2, zsize/2]
      along z. */
  lemma Extent(p: PlaneParams)
    requires Buildable(p)
    ensures ColumnX(p, 0) == -p.xsize / 2.0 && ColumnX(p, p.xdivs) == p.xsize / 2.0
    ensures RowZ(p, 0) == -p.zsize / 2.0 && RowZ(p, p.zdivs) == p.zsize / 2.0
  {
    var dx, dz := p.xdivs as real, p.zdivs as real;
    assert dx * (p.xsize / dx) == p.xsize && dz * (p.zsize / dz) == p.zsize;
  }

  /** The far corner (i, j) = (zdivs, xdivs) gets texture coordinate
      (xdivs smax / zdivs, zdivs tmax / xdivs): the texture spans exactly
      [0, smax] x [0, tmax] only when both axes have the same number of
      divisions. */
  lemma TexCoordCorner(p: PlaneParams)
    requires Buildable(p)
    ensures TexCoordOf(p, 0, 0) == [0.0, 0.0]
    ensures p.xdivs == p.zdivs ==> TexCoordOf(p, p.zdivs, p.xdivs) == [p.smax, p.tmax]
  {
    if p.xdivs == p.zdivs {
      var d := p.zdivs as real;
      assert d * (p.smax / d) == p.smax && d * (p.tmax / d) == p.tmax;
      assert Scaled(p.xdivs, SStep(p)) == p.smax && Scaled(p.zdivs, TStep(p)) == p.tmax;
    }
  }

  /** Row i of the vertex arrays follows rows 0 to i - 1 and ends at
      vertex (i + 1)(xdivs + 1), within the grid. */
  lemma VertexRowStep(p: PlaneParams, i: nat)
    requires Buildable(p) && i <= p.zdivs
    ensures |Concat(PositionRowGen(p), i)| + 3 * (p.xdivs + 1) == |Concat(PositionRowGen(p), i + 1)| <= |Positions(p)|
    ensures |Concat(NormalRowGen(p), i)| + 3 * (p.xdivs + 1) == |Concat(NormalRowGen(p), i + 1)| <= |Normals(p)|
    ensures |Concat(TexCoordRowGen(p), i)| + 2 * (p.xdivs + 1) == |Concat(TexCoordRowGen(p), i + 1)| <= |TexCoords(p)|
  {
    VertexRowLengths(p);
    ConcatPrefix(PositionRowGen(p), i + 1, p.zdivs + 1);
    ConcatPrefix(NormalRowGen(p), i + 1, p.zdivs + 1);
    ConcatPrefix(TexCoordRowGen(p), i + 1, p.zdivs + 1);
  }

  /** Rows 0 to i of the vertex arrays are rows 0 to i - 1 followed by
      row i. */
  lemma NextRow(p: PlaneParams, i: nat)
    requires Buildable(p)
    ensures Concat(PositionRowGen(p), i + 1) == Concat(PositionRowGen(p), i) + PositionRow(p, i)
    ensures Concat(NormalRowGen(p), i + 1) == Concat(NormalRowGen(p), i) + NormalRow(p)
    ensures Concat(TexCoordRowGen(p), i + 1) == Concat(TexCoordRowGen(p), i) + TexCoordRow(p, i)
  {
  }

  /** The vertex arrays hold rows 0 to i - 1 of the grid in their first
      vidx and tidx entries. */
  ghost predicate RowsFilled(p: PlaneParams, v: array<real>, n: array<real>, tex: array<real>, vidx: nat, tidx: nat, i: nat)
    requires Buildable(p)
    reads v, n, tex
  {
    vidx <= v.Length && vidx <= n.Length && tidx <= tex.Length &&
    v[..vidx] == Concat(PositionRowGen(p), i) && n[..vidx] == Concat(NormalRowGen(p), i) &&
    tex[..tidx] == Concat(TexCoordRowGen(p), i)
  }

  method FillVertices(p: PlaneParams) returns (v: array<real>, n: array<real>, tex: array<real>)
    requires Buildable(p)
    ensures v[..] == Positions(p) && n[..] == Normals(p) && tex[..] == TexCoords(p)
  {
    var count := VertexCount(p);
    v := new real[3 * count];
    n := new real[3 * count];
    tex := new real[2 * count];
    Lengths(p);
    FillRows(v, n, tex, p);
  }

  /** The nested loop of the constructor that fills the vertex arrays row
      by row. */
  method FillRows(v: array<real>, n: array<real>, tex: array<real>, p: PlaneParams)
    requires Buildable(p) && v != n && v != tex && n != tex
    requires v.Length == |Positions(p)| && n.Length == |Normals(p)| && tex.Length == |TexCoords(p)|
    modifies v, n, tex
    ensures v[..] == Positions(p) && n[..] == Normals(p) && tex[..] == TexCoords(p)
  {
    var x2, z2 := p.xsize / 2.0, p.zsize / 2.0;
    var iFactor, jFactor := RowStep(p), ColumnStep(p);
    var texi, texj := SStep(p), TStep(p);
    var vidx: nat, tidx: nat := 0, 0;
    for i := 0 to p.zdivs + 1
      invariant RowsFilled(p, v, n, tex, vidx, tidx, i)
    {
      VertexRowStep(p, i);
      NextRow(p, i);
      var z := Coord(iFactor, z2, i);
      vidx, tidx := FillVertexRow(v, n, tex, vidx, tidx, i, p.xdivs + 1, z, jFactor, x2, texi, texj, p);
    }
  }

  method FillVertexRow(v: array<real>, n: array<real>, tex: array<real>, vidx0: nat, tidx0: nat,
                       i: nat, cols: nat, z: real, jFactor: real, x2: real, texi: real, texj: real, ghost p: PlaneParams)
    returns (vidx: nat, tidx: nat)
    requires Buildable(p) && cols == p.xdivs + 1 && z == RowZ(p, i) && jFactor == ColumnStep(p) && x2 == p.xsize / 2.0
    requires texi == SStep(p) && texj == TStep(p)
    requires v != n && v != tex && n != tex
    requires vidx0 + 3 * cols <= v.Length && vidx0 + 3 * cols <= n.Length && tidx0 + 2 * cols <= tex.Length
    modifies v, n, tex
    ensures vidx == vidx0 + 3 * cols && tidx == tidx0 + 2 * cols
    ensures v[..vidx] == old(v[..vidx0]) + PositionRow(p, i)
    ensures n[..vidx] == old(n[..vidx0]) + NormalRow(p)
    ensures tex[..tidx] == old(tex[..tidx0]) + TexCoordRow(p, i)
  {
    vidx, tidx := vidx0, tidx0;
    for j := 0 to cols
      invariant vidx == vidx0 + 3 * j && tidx == tidx0 + 2 * j
      invariant v[..vidx0] == old(v[..vidx0]) && v[vidx0..vidx] == Concat(PositionGen(p, i), j)
      invariant n[..vidx0] == old(n[..vidx0]) && n[vidx0..vidx] == Concat(UpGen(), j)
      invariant tex[..tidx0] == old(tex[..tidx0]) && tex[tidx0..tidx] == Concat(TexCoordGen(p, i), j)
    {
      var x := Coord(jFactor, x2, j);
      Store(v, vidx0, vidx, [x, 0.0, z]);
      Store(n, vidx0, vidx, [0.0, 1.0, 0.0]);
      vidx := vidx + 3;
      Store(tex, tidx0, tidx, [Scaled(j, texi), Scaled(i, texj)]);
      tidx := tidx + 2;
    }
    SplitPrefix(v[..], vidx0, vidx);
    SplitPrefix(n[..], vidx0, vidx);
    SplitPrefix(tex[..], tidx0, tidx);
  }

  /** The index array, six indices per cell, row by row. */
  /** Row i of the cells lies between the rows of vertices starting at
      i (xdivs + 1) and (i + 1)(xdivs + 1), and its indices follow those
      of rows 0 to i - 1 in the index array. */
  lemma CellRowStep(p: PlaneParams, i: nat)
    requires Buildable(p) && i < p.zdivs
    ensures |Concat(ElementRowGen(p), i)| + 6 * p.xdivs == |Concat(ElementRowGen(p), i + 1)| <= |Elements(p)|
    ensures 0 <= i * (p.xdivs + 1) <= (i + 1) * (p.xdivs + 1) && (i + 1) * (p.xdivs + 1) + p.xdivs <= U32Max
  {
    ElementRowLengths(p);
    ConcatPrefix(ElementRowGen(p), i + 1, p.zdivs);
    CellBounds(p, i, p.xdivs - 1);
  }

  method FillElements(p: PlaneParams) returns (el: array<u32>)
    requires Buildable(p)
    ensures el[..] == Elements(p)
  {
    el := new u32[6 * (p.zdivs * p.xdivs)];
    var idx: nat := 0;
    Lengths(p);
    for i := 0 to p.zdivs
      invariant idx <= el.Length && el[..idx] == Concat(ElementRowGen(p), i)
    {
      CellRowStep(p, i);
      var rowStart, nextRowStart := i * (p.xdivs + 1), (i + 1) * (p.xdivs + 1);
      idx := FillCellRow(el, idx, rowStart, nextRowStart, p.xdivs, p, i);
    }
  }

  /** One row of the index loop: the cells between the rows starting at
      vertices `rowStart` and `nextRowStart`, row i of the cells of `p`. */
  method FillCellRow(el: array<u32>, idx0: nat, rowStart: nat, nextRowStart: nat, cells: nat,
                     ghost p: PlaneParams, ghost i: nat)
    returns (idx: nat)
    requires Buildable(p) && rowStart == i * (p.xdivs + 1) && nextRowStart == (i + 1) * (p.xdivs + 1) && cells == p.xdivs
    requires idx0 + 6 * cells <= el.Length
    requires rowStart <= nextRowStart && nextRowStart + cells <= U32Max
    modifies el
    ensures idx == idx0 + 6 * cells
    ensures el[..idx] == old(el[..idx0]) + ElementRow(p, i)
  {
    idx := idx0;
    for j := 0 to cells
      invariant idx == idx0 + 6 * j
      invariant el[..idx0] == old(el[..idx0]) && el[idx0..idx] == Concat(QuadGen(rowStart, nextRowStart), j)
    {
      Store(el, idx0, idx, [rowStart + j, nextRowStart + j, nextRowStart + j + 1,
                            rowStart + j, nextRowStart + j + 1, rowStart + j + 1]);
      idx := idx + 6;
    }
    SplitPrefix(el[..], idx0, idx);
  }

  /** A plane on the GPU: the four buffers the constructor uploads, and
      the number of cells, which `render` draws as two triangles each. */
  class Plane {
    var faces: int
    var positionBuffer: seq<real>
    var normalBuffer: seq<real>
    var texCoordBuffer: seq<real>
    var elementBuffer: seq<u32>

    /** The index buffer holds the six indices of every face, and each of
        them names a vertex all three vertex buffers hold. */
    predicate Valid()
      reads this
    {
      |elementBuffer| == 6 * faces &&
      forall e :: e in elementBuffer ==>
        3 * e + 3 <= |positionBuffer| && 3 * e + 3 <= |normalBuffer| && 2 * e + 2 <= |texCoordBuffer|
    }

    constructor(p: PlaneParams)
      requires Buildable(p)
      ensures faces == p.xdivs * p.zdivs
      ensures positionBuffer == Positions(p) && normalBuffer == Normals(p)
      ensures texCoordBuffer == TexCoords(p) && elementBuffer == Elements(p)
      ensures Valid()
    {
      faces := p.xdivs * p.zdivs;
      var v, n, tex := FillVertices(p);
      var el := FillElements(p);
      positionBuffer, normalBuffer, texCoordBuffer, elementBuffer := v[..], n[..], tex[..], el[..];
      new;
      Lengths(p);
      ElementsInRange(p);
    }

    /** `render`: draws the first 6 faces indices of the index buffer as
        triangles, which is the whole buffer, and every vertex a triangle
        uses is in the vertex buffers. */
    method Render() returns (count: int, drawn: seq<u32>)
      requires Valid()
      ensures count == |elementBuffer| && count % 3 == 0 && drawn == elementBuffer
      ensures forall e :: e in drawn ==> 3 * e + 3 <= |positionBuffer| && 2 * e + 2 <= |texCoordBuffer|
    {
      count := 6 * faces;
      drawn := elementBuffer[..count];
    }
  }
}

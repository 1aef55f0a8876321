/** The binary mesh cache: a header of five 32-bit element counts (position
    floats, normal floats, texture-coordinate floats, tangent floats,
    indices) followed by the five arrays, each element one 4-byte cell. */
module BinFormat {
  import opened CInt

  /** A 4-byte cell of the file, as it was written: an unsigned word (a
      count or an index) or a float. */
  datatype Cell = Word(bits: u32) | Float(value: real)

  /** How the reader reinterprets the 4 bytes of a cell written as the
      other kind (`reinterpret_cast` of the raw bytes). */
  datatype Reinterpret = Reinterpret(asFloat: u32 -> real, asWord: real -> u32)

  function CellWord(c: Cell, re: Reinterpret): u32
  {
    match c
    case Word(b) => b
    case Float(f) => re.asWord(f)
  }

  function CellFloat(c: Cell, re: Reinterpret): real
  {
    match c
    case Word(b) => re.asFloat(b)
    case Float(f) => f
  }

  /** What a cache file holds, array by array. */
  datatype BinMesh = BinMesh(vertices: seq<real>, normals: seq<real>, uvs: seq<real>,
                             tangents: seq<real>, indices: seq<u32>)

  predicate Encodable(m: BinMesh)
  {
    |m.vertices| <= U32Max && |m.normals| <= U32Max && |m.uvs| <= U32Max &&
    |m.tangents| <= U32Max && |m.indices| <= U32Max
  }

  function FloatCells(xs: seq<real>): (cs: seq<Cell>)
    ensures |cs| == |xs|
    ensures forall i :: 0 <= i < |xs| ==> cs[i] == Float(xs[i])
  {
    seq(|xs|, i requires 0 <= i < |xs| => Float(xs[i]))
  }

  function WordCells(ws: seq<u32>): (cs: seq<Cell>)
    ensures |cs| == |ws|
    ensures forall i :: 0 <= i < |ws| ==> cs[i] == Word(ws[i])
  {
    seq(|ws|, i requires 0 <= i < |ws| => Word(ws[i]))
  }

  function Header(m: BinMesh): seq<Cell>
    requires Encodable(m)
  {
    [Word(|m.vertices|), Word(|m.normals|), Word(|m.uvs|), Word(|m.tangents|), Word(|m.indices|)]
  }

  /** The arrays after the header, in the order positions, normals,
      texture coordinates, tangents, indices. */
  function Body(m: BinMesh): seq<Cell>
  {
    FloatCells(m.vertices) + (FloatCells(m.normals) + (FloatCells(m.uvs) +
      (FloatCells(m.tangents) + WordCells(m.indices))))
  }

  /** The file the writer produces: the header of element counts, then
      the arrays. */
  function Encode(m: BinMesh): (cs: seq<Cell>)
    requires Encodable(m)
  {
    Header(m) + Body(m)
  }

  /** What the reader obtains: the five header counts (a count the file
      is too short to hold stays 0) and, for each array, the elements the
      file still holds (at most the count; a short file leaves the rest of
      the allocated array unread). */
  datatype BinRead = BinRead(vCount: u32, nCount: u32, uvCount: u32, tanCount: u32, indexCount: u32,
                             contents: BinMesh)

  function MinNat(a: nat, b: nat): nat { if a < b then a else b }

  /** Header word i, or 0 past the end of the file. */
  function Count(cells: seq<Cell>, i: nat, re: Reinterpret): u32
  {
    if i < |cells| then CellWord(cells[i], re) else 0
  }

  /** Reading `count` floats: those available, and the cells after them. */
  function ReadFloats(cells: seq<Cell>, count: nat, re: Reinterpret): (r: (seq<real>, seq<Cell>))
    ensures |r.0| == MinNat(count, |cells|)
    ensures r.1 == cells[MinNat(count, |cells|)..]
    ensures forall i :: 0 <= i < |r.0| ==> r.0[i] == CellFloat(cells[i], re)
  {
    var k := MinNat(count, |cells|);
    (seq(k, i requires 0 <= i < k => CellFloat(cells[i], re)), cells[k..])
  }

  /** Reading `count` words: those available. */
  function ReadWords(cells: seq<Cell>, count: nat, re: Reinterpret): (ws: seq<u32>)
    ensures |ws| == MinNat(count, |cells|)
    ensures forall i :: 0 <= i < |ws| ==> ws[i] == CellWord(cells[i], re)
  {
    var k := MinNat(count, |cells|);
    seq(k, i requires 0 <= i < k => CellWord(cells[i], re))
  }

  /** Reading the five arrays of the given element counts. */
  function DecodeBody(body: seq<Cell>, v: nat, n: nat, uv: nat, tan: nat, ni: nat, re: Reinterpret): (m: BinMesh)
    ensures |m.vertices| <= v && |m.normals| <= n && |m.uvs| <= uv && |m.tangents| <= tan
    ensures |m.indices| <= ni
  {
    var (vs, b1) := ReadFloats(body, v, re);
    var (ns, b2) := ReadFloats(b1, n, re);
    var (uvs, b3) := ReadFloats(b2, uv, re);
    var (ts, b4) := ReadFloats(b3, tan, re);
    BinMesh(vs, ns, uvs, ts, ReadWords(b4, ni, re))
  }

  /** The reader: five header words, then the five arrays in order. */
  function Decode(cells: seq<Cell>, re: Reinterpret): (r: BinRead)
    ensures |r.contents.vertices| <= r.vCount && |r.contents.normals| <= r.nCount
    ensures |r.contents.uvs| <= r.uvCount && |r.contents.tangents| <= r.tanCount
    ensures |r.contents.indices| <= r.indexCount
  {
    var v, n, uv, tan, ni := Count(cells, 0, re), Count(cells, 1, re), Count(cells, 2, re),
                             Count(cells, 3, re), Count(cells, 4, re);
    BinRead(v, n, uv, tan, ni, DecodeBody(cells[MinNat(5, |cells|)..], v, n, uv, tan, ni, re))
  }

  lemma ReadFloatCells(xs: seq<real>, rest: seq<Cell>, re: Reinterpret)
    ensures ReadFloats(FloatCells(xs) + rest, |xs|, re) == (xs, rest)
  {
    var cs := FloatCells(xs) + rest;
    var r := ReadFloats(cs, |xs|, re);
    assert cs[|xs|..] == rest;
    assert forall i :: 0 <= i < |xs| ==> r.0[i] == CellFloat(Float(xs[i]), re);
    assert r.0 == xs;
  }

  /** Reading back the written arrays with their own counts gives them
      back. */
  lemma DecodeBodyOfBody(m: BinMesh, re: Reinterpret)
    ensures DecodeBody(Body(m), |m.vertices|, |m.normals|, |m.uvs|, |m.tangents|, |m.indices|, re) == m
  {
    var b4 := WordCells(m.indices);
    var b3 := FloatCells(m.tangents) + b4;
    var b2 := FloatCells(m.uvs) + b3;
    var b1 := FloatCells(m.normals) + b2;
    ReadFloatCells(m.vertices, b1, re);
    ReadFloatCells(m.normals, b2, re);
    ReadFloatCells(m.uvs, b3, re);
    ReadFloatCells(m.tangents, b4, re);
    assert ReadWords(b4, |m.indices|, re) == m.indices;
  }

  /** Reading back a written file gives the counts of the arrays and the
      arrays themselves, whatever the reinterpretation of raw cells. */
  lemma DecodeEncode(m: BinMesh, re: Reinterpret)
    requires Encodable(m)
    ensures Decode(Encode(m), re) ==
      BinRead(|m.vertices|, |m.normals|, |m.uvs|, |m.tangents|, |m.indices|, m)
  {
    var cs := Encode(m);
    assert cs[MinNat(5, |cs|)..] == Body(m);
    DecodeBodyOfBody(m, re);
  }

  /** A file that ends inside the header yields zero for every missing
      count and nothing else. */
  lemma ShortHeader(cells: seq<Cell>, re: Reinterpret)
    requires |cells| < 5
    ensures Decode(cells, re).indexCount == 0
    ensures Decode(cells, re).contents == BinMesh([], [], [], [], [])
  {
  }
}

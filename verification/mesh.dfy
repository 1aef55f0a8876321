/** The mesh: the OBJ importer (trimming, statement loop, triangle
    expansion, vertex welding, normal renormalisation, bounding-box
    recentring, flattening into float arrays), the binary cache reader,
    and the cache writer of the upload step. */
module Meshes {
  import opened Wrappers
  import opened CInt
  import opened Geometry
  import opened PackedVertices
  import opened ObjFormat
  import opened MeshIndexer
  import opened BinFormat

  /** What the statement loop gathers from an OBJ text; `None` when a face
      with more than three references aborts the import. */
  function ObjContents(text: string, num: string -> real): Option<ObjData>
  {
    Accumulate(Statements(text, num))
  }

  /** What the importer needs of the gathered data to stay defined: the
      expansion stays in bounds, and the vertex stream is short enough for
      the 32-bit loop counters of the weld and copy loops to reach its end. */
  predicate Importable(text: string, num: string -> real)
  {
    match ObjContents(text, num)
    case None => true
    case Some(d) => Expandable(d) && |d.refs| <= U32Max
  }

  // ---------------------------------------------------------------- bounding box

  /** Componentwise maximum, as the AABB loop updates it. */
  function Upper(m: Vec3, p: Vec3): Vec3
  {
    Vec3(if p.x > m.x then p.x else m.x, if p.y > m.y then p.y else m.y, if p.z > m.z then p.z else m.z)
  }

  /** Componentwise minimum, as the AABB loop updates it. */
  function Lower(m: Vec3, p: Vec3): Vec3
  {
    Vec3(if p.x < m.x then p.x else m.x, if p.y < m.y then p.y else m.y, if p.z < m.z then p.z else m.z)
  }

  function BoxMax(s: seq<Vec3>): Vec3
    requires |s| > 0
  {
    if |s| == 1 then s[0] else Upper(BoxMax(s[..|s| - 1]), s[|s| - 1])
  }

  function BoxMin(s: seq<Vec3>): Vec3
    requires |s| > 0
  {
    if |s| == 1 then s[0] else Lower(BoxMin(s[..|s| - 1]), s[|s| - 1])
  }

  /** The centre of the axis-aligned bounding box. */
  function BoxCenter(s: seq<Vec3>): Vec3
    requires |s| > 0
  {
    var lo, hi := BoxMin(s), BoxMax(s);
    Vec3((hi.x + lo.x) / 2.0, (hi.y + lo.y) / 2.0, (hi.z + lo.z) / 2.0)
  }

  /** Every point moved by `-c`. */
  function Translated(s: seq<Vec3>, c: Vec3): (r: seq<Vec3>)
    ensures |r| == |s|
  {
    seq(|s|, i requires 0 <= i < |s| => Sub(s[i], c))
  }

  /** Each coordinate of the box's maximum corner is that coordinate of some point. */
  lemma {:induction false} BoxMaxAttained(s: seq<Vec3>)
    requires |s| > 0
    ensures exists i :: 0 <= i < |s| && s[i].x == BoxMax(s).x
    ensures exists i :: 0 <= i < |s| && s[i].y == BoxMax(s).y
    ensures exists i :: 0 <= i < |s| && s[i].z == BoxMax(s).z
  {
    if |s| > 1 {
      var n := |s| - 1;
      BoxMaxAttained(s[..n]);
      assert forall i :: 0 <= i < n ==> s[..n][i] == s[i];
      var x0 :| 0 <= x0 < n && s[..n][x0].x == BoxMax(s[..n]).x;
      if s[n].x > BoxMax(s[..n]).x { assert s[n].x == BoxMax(s).x; } else { assert s[x0].x == BoxMax(s).x; }
      var y0 :| 0 <= y0 < n && s[..n][y0].y == BoxMax(s[..n]).y;
      if s[n].y > BoxMax(s[..n]).y { assert s[n].y == BoxMax(s).y; } else { assert s[y0].y == BoxMax(s).y; }
      var z0 :| 0 <= z0 < n && s[..n][z0].z == BoxMax(s[..n]).z;
      if s[n].z > BoxMax(s[..n]).z { assert s[n].z == BoxMax(s).z; } else { assert s[z0].z == BoxMax(s).z; }
    } else {
      assert s[0] == BoxMax(s);
    }
  }

  /** Each coordinate of the box's minimum corner is that coordinate of some point. */
  lemma {:induction false} BoxMinAttained(s: seq<Vec3>)
    requires |s| > 0
    ensures exists i :: 0 <= i < |s| && s[i].x == BoxMin(s).x
    ensures exists i :: 0 <= i < |s| && s[i].y == BoxMin(s).y
    ensures exists i :: 0 <= i < |s| && s[i].z == BoxMin(s).z
  {
    if |s| > 1 {
      var n := |s| - 1;
      BoxMinAttained(s[..n]);
      assert forall i :: 0 <= i < n ==> s[..n][i] == s[i];
      var x0 :| 0 <= x0 < n && s[..n][x0].x == BoxMin(s[..n]).x;
      if s[n].x < BoxMin(s[..n]).x { assert s[n].x == BoxMin(s).x; } else { assert s[x0].x == BoxMin(s).x; }
      var y0 :| 0 <= y0 < n && s[..n][y0].y == BoxMin(s[..n]).y;
      if s[n].y < BoxMin(s[..n]).y { assert s[n].y == BoxMin(s).y; } else { assert s[y0].y == BoxMin(s).y; }
      var z0 :| 0 <= z0 < n && s[..n][z0].z == BoxMin(s[..n]).z;
      if s[n].z < BoxMin(s[..n]).z { assert s[n].z == BoxMin(s).z; } else { assert s[z0].z == BoxMin(s).z; }
    } else {
      assert s[0] == BoxMin(s);
    }
  }

  /** The box bounds every point and its corners are attained on each axis. */
  lemma {:induction false} BoxBounds(s: seq<Vec3>)
    requires |s| > 0
    ensures forall i :: 0 <= i < |s| ==>
      BoxMin(s).x <= s[i].x <= BoxMax(s).x && BoxMin(s).y <= s[i].y <= BoxMax(s).y &&
      BoxMin(s).z <= s[i].z <= BoxMax(s).z
    ensures exists i :: 0 <= i < |s| && s[i].x == BoxMax(s).x
    ensures exists i :: 0 <= i < |s| && s[i].x == BoxMin(s).x
    ensures exists i :: 0 <= i < |s| && s[i].y == BoxMax(s).y
    ensures exists i :: 0 <= i < |s| && s[i].y == BoxMin(s).y
    ensures exists i :: 0 <= i < |s| && s[i].z == BoxMax(s).z
    ensures exists i :: 0 <= i < |s| && s[i].z == BoxMin(s).z
  {
    BoxMaxAttained(s);
    BoxMinAttained(s);
    if |s| > 1 {
      var n := |s| - 1;
      BoxBounds(s[..n]);
      assert forall i :: 0 <= i < n ==> s[..n][i] == s[i];
    }
  }

  /** Moving every point moves the box by the same amount. */
  lemma {:induction false} BoxOfTranslated(s: seq<Vec3>, c: Vec3)
    requires |s| > 0
    ensures BoxMin(Translated(s, c)) == Sub(BoxMin(s), c)
    ensures BoxMax(Translated(s, c)) == Sub(BoxMax(s), c)
  {
    if |s| > 1 {
      var n := |s| - 1;
      BoxOfTranslated(s[..n], c);
      assert Translated(s, c)[..n] == Translated(s[..n], c);
    }
  }

  /** After moving the box centre to the origin, on each axis the box's
      lower and upper bounds add up to zero. */
  lemma CenteredBox(s: seq<Vec3>)
    requires |s| > 0
    ensures Add(BoxMin(Translated(s, BoxCenter(s))), BoxMax(Translated(s, BoxCenter(s)))) == Zero3
  {
    BoxOfTranslated(s, BoxCenter(s));
  }

  // ---------------------------------------------------------------- import steps

  /** The `f` branch: the loop `while (good()) >> token`, keeping the
      references whose position index is not -1. */
  method ReadFaceRefs(rest: string) returns (refs: seq<FaceRef>)
    ensures refs == AcceptedRefs(FaceTokens(rest))
  {
    refs := [];
    var s := rest;
    while |s| > 0
      invariant refs + AcceptedRefs(FaceTokens(s)) == AcceptedRefs(FaceTokens(rest))
      decreases |s|
    {
      ghost var before := s;
      var t := SkipSpaces(s);
      var token: string;
      if |t| == 0 {
        token, s := "", "";
      } else {
        token := WordPrefix(t);
        s := t[|token|..];
      }
      assert FaceTokens(before) == [token] + FaceTokens(s);
      AcceptedRefsCons(token, FaceTokens(s));
      ghost var refs0, tail := refs, AcceptedRefs(FaceTokens(s));
      var r := ParseFaceRef(token);
      ghost var kept := if r.p == -1 then [] else [r];
      assert AcceptedRefs(FaceTokens(before)) == kept + tail;
      if r.p != -1 {
        refs := refs + [r];
      }
      assert refs == refs0 + kept;
      assert refs + tail == refs0 + (kept + tail);
    }
  }

  /** The statement loop of the importer over the processed lines. */
  method ParseObjText(text: string, num: string -> real) returns (r: Option<ObjData>)
    ensures r == ObjContents(text, num)
  {
    var lines := CompleteLines(text);
    var tempV: seq<Vec3>, tempUv: seq<Vec2>, tempN: seq<Vec3>, refs: seq<FaceRef> := [], [], [], [];
    var token := "";
    for i := 0 to |lines|
      invariant Accumulate(Statements(text, num)[..i]) == Some(ObjData(tempV, tempUv, tempN, refs))
      invariant token == KeywordBefore(lines, i)
    {
      StatementStep(text, num, i, ObjData(tempV, tempUv, tempN, refs));
      var line := Mesh.TrimString(lines[i]);
      var aborted;
      token, tempV, tempUv, tempN, refs, aborted := ReadLine(line, token, num, tempV, tempUv, tempN, refs);
      if aborted {
        AbortIsFinal(Statements(text, num), i);
        return None;
      }
    }
    assert Statements(text, num)[..|lines|] == Statements(text, num);
    r := Some(ObjData(tempV, tempUv, tempN, refs));
  }

  /** The body of the statement loop for one trimmed line, read while
      `token` holds `prev`: the new keyword, the lists with the line's
      element appended, and whether a face with more than three
      references aborts the import. */
  method ReadLine(line: string, prev: string, num: string -> real,
                  tempV: seq<Vec3>, tempUv: seq<Vec2>, tempN: seq<Vec3>, refs: seq<FaceRef>)
    returns (token: string, tempV': seq<Vec3>, tempUv': seq<Vec2>, tempN': seq<Vec3>, refs': seq<FaceRef>, aborted: bool)
    ensures token == LineKeyword(line, prev)
    ensures aborted <==> Unsupported(ParseStatement(line, prev, num))
    ensures !aborted ==>
      Apply(ObjData(tempV, tempUv, tempN, refs), ParseStatement(line, prev, num)) == Some(ObjData(tempV', tempUv', tempN', refs'))
  {
    token, tempV', tempUv', tempN', refs', aborted := prev, tempV, tempUv, tempN, refs, false;
    if |line| > 0 && line[0] != '#' {
      // A failed read leaves `token` as it was and the stream failed.
      var (word, rest) := ReadWord(line);
      var failed := |word| == 0;
      if !failed {
        token := word;
      }
      var words := if failed then [] else Words(rest);
      if token == "v" {
        tempV' := tempV + [Vec3(NumberAt(words, 0, num), NumberAt(words, 1, num), NumberAt(words, 2, num))];
      } else if token == "vt" {
        tempUv' := tempUv + [Vec2(NumberAt(words, 0, num), NumberAt(words, 1, num))];
      } else if token == "vn" {
        tempN' := tempN + [Vec3(NumberAt(words, 0, num), NumberAt(words, 1, num), NumberAt(words, 2, num))];
      } else if token == "f" {
        var faceRefs: seq<FaceRef> := [];
        if !failed {
          faceRefs := ReadFaceRefs(rest);
        }
        if |faceRefs| > 3 {
          aborted := true;
        } else {
          refs' := refs + faceRefs;
        }
      }
    }
  }

  /** The expansion loop: three references per triangle, each looked up
      1-based in the gathered positions, texture coordinates and normals. */
  method ExpandTriangles(d: ObjData) returns (inV: seq<Vec3>, inUv: seq<Vec2>, inN: seq<Vec3>)
    requires Expandable(d)
    ensures |inV| == |d.refs| && |inUv| == |d.refs| && |inN| == |d.refs|
    ensures Zip(inV, inUv, inN) == ExpandAll(d)
  {
    inV, inUv, inN := [], [], [];
    var idx := 0;
    while idx < |d.refs|
      invariant idx <= |d.refs| && idx % 3 == 0
      invariant |inV| == idx && |inUv| == idx && |inN| == idx
      invariant forall k :: 0 <= k < idx ==> PackedVertex(inV[k], inUv[k], inN[k]) == Expanded(d, k)
    {
      for i := 0 to 3
        invariant |inV| == idx + i && |inUv| == idx + i && |inN| == idx + i
        invariant forall k :: 0 <= k < idx + i ==> PackedVertex(inV[k], inUv[k], inN[k]) == Expanded(d, k)
      {
        var ref := d.refs[idx + i];
        inV := inV + [d.positions[ref.p - 1]];
        inUv := inUv + [d.uvs[ref.t - 1]];
        inN := inN + [d.normals[ref.n - 1]];
      }
      idx := idx + 3;
    }
  }

  /** The weld loop over the packed vertex stream, with the first-match
      map lookup of `get_similar_vertex_index`. */
  method WeldVertices(stream: seq<PackedVertex>) returns (w: Welded)
    ensures w == Weld(stream)
    ensures WeldCorrect(stream, w)
  {
    var keys: seq<PackedVertex>, outV: seq<Vec3>, outUv: seq<Vec2>, outN: seq<Vec3>, outI: seq<nat> :=
      [], [], [], [], [];
    for i := 0 to |stream|
      invariant Welded(keys, outV, outUv, outN, outI) == Weld(stream[..i])
    {
      assert stream[..i + 1][..i] == stream[..i];
      var packed := stream[i];
      match FindKey(keys, packed)
      case Some(index) =>
        outI := outI + [index];
        outN := outN[index := Add(outN[index], packed.normal)];
      case None =>
        outV := outV + [packed.position];
        outUv := outUv + [packed.uv];
        outN := outN + [packed.normal];
        var newIndex := |outV| - 1;
        outI := outI + [newIndex];
        keys := keys + [packed];
    }
    assert stream[..|stream|] == stream;
    w := Welded(keys, outV, outUv, outN, outI);
    WeldIsCorrect(stream);
  }

  /** The renormalisation loop: each summed normal normalised once. */
  method NormalizeNormals(ns: seq<Vec3>, normalize: Vec3 -> Vec3) returns (r: seq<Vec3>)
    ensures |r| == |ns|
    ensures forall i :: 0 <= i < |ns| ==> r[i] == normalize(ns[i])
  {
    r := ns;
    for i := 0 to |r|
      invariant |r| == |ns|
      invariant forall k :: 0 <= k < i ==> r[k] == normalize(ns[k])
      invariant forall k :: i <= k < |r| ==> r[k] == ns[k]
    {
      r := r[i := normalize(r[i])];
    }
  }

  /** The fill loop: positions and normals three floats each, texture
      coordinates two floats each.  (The tangent branch of the loop is dead:
      the importer never produces tangents.) */
  method Flatten(outV: seq<Vec3>, outN: seq<Vec3>, outUv: seq<Vec2>)
    returns (vd: array<real>, nd: array<real>, ud: array<real>)
    requires |outN| == |outV| && |outUv| == |outV|
    ensures fresh(vd) && fresh(nd) && fresh(ud)
    ensures vd[..] == FlatVec3(outV) && nd[..] == FlatVec3(outN) && ud[..] == FlatVec2(outUv)
  {
    var n := |outV|;
    ghost var fv, fn, fu := FlatVec3(outV), FlatVec3(outN), FlatVec2(outUv);
    vd, nd, ud := new real[3 * n], new real[3 * n], new real[2 * n];
    var idx, uvIdx := 0, 0;
    for i := 0 to n
      invariant vd != nd && vd != ud && nd != ud
      invariant idx == 3 * i && uvIdx == 2 * i
      invariant forall k :: 0 <= k < idx ==> vd[k] == fv[k] && nd[k] == fn[k]
      invariant forall k :: 0 <= k < uvIdx ==> ud[k] == fu[k]
    {
      FlatVec3At(outV, i);
      FlatVec3At(outN, i);
      FlatVec2At(outUv, i);
      vd[idx], vd[idx + 1], vd[idx + 2] := outV[i].x, outV[i].y, outV[i].z;
      nd[idx], nd[idx + 1], nd[idx + 2] := outN[i].x, outN[i].y, outN[i].z;
      idx := idx + 3;
      ud[uvIdx], ud[uvIdx + 1] := outUv[i].x, outUv[i].y;
      uvIdx := uvIdx + 2;
    }
  }

  /** The index copy loop. */
  method CopyIndices(outI: seq<nat>) returns (id: array<u32>)
    requires forall i :: 0 <= i < |outI| ==> outI[i] <= U32Max
    ensures fresh(id)
    ensures id[..] == outI
  {
    id := new u32[|outI|];
    for i := 0 to |outI|
      invariant forall k :: 0 <= k < i ==> id[k] == outI[k]
    {
      id[i] := outI[i];
    }
  }

  /** Expansion, welding and renormalisation of the gathered data. */
  method WeldObj(d: ObjData, normalize: Vec3 -> Vec3) returns (w: Welded, outN: seq<Vec3>)
    requires Expandable(d) && |d.refs| <= U32Max
    ensures w == Weld(ExpandAll(d)) && outN == NormalizeAll(normalize, w.normals)
    ensures WellFormed(w) && |outN| == |w.keys| && |w.keys| <= U32Max
  {
    var inV, inUv, inN := ExpandTriangles(d);
    w := WeldVertices(Zip(inV, inUv, inN));
    outN := NormalizeNormals(w.normals, normalize);
    WeldKeysBound(Zip(inV, inUv, inN));
  }

  /** `center` applied to a copy of the gathered positions, as the
      importer does when recentring is on: the copy is discarded, so the
      stored mesh does not depend on it. */
  method CenterCopy(positions: seq<Vec3>)
  {
    var temp := new Vec3[|positions|](i requires 0 <= i < |positions| => positions[i]);
    Mesh.Center(temp);
  }

  /** The arrays of the welded mesh: the fill loop and the index copy. */
  method WeldedArrays(w: Welded, outN: seq<Vec3>) returns (vd: array<real>, nd: array<real>, ud: array<real>, id: array<u32>)
    requires WellFormed(w) && |outN| == |w.keys| && |w.keys| <= U32Max
    ensures fresh(vd) && fresh(nd) && fresh(ud) && fresh(id)
    ensures vd[..] == FlatVec3(w.vertices) && nd[..] == FlatVec3(outN) && ud[..] == FlatVec2(w.uvs)
    ensures id[..] == w.indices
  {
    vd, nd, ud := Flatten(w.vertices, outN, w.uvs);
    id := CopyIndices(w.indices);
  }

  /** The arrays of a cache file: allocated with the header's element
      counts, each filled by one block read of the elements the file holds. */
  method ReadArrays(r: BinRead) returns (vd: array<real>, nd: array<real>, ud: array<real>, td: array<real>, id: array<u32>)
    requires |r.contents.vertices| <= r.vCount && |r.contents.normals| <= r.nCount
    requires |r.contents.uvs| <= r.uvCount && |r.contents.tangents| <= r.tanCount
    requires |r.contents.indices| <= r.indexCount
    ensures fresh(vd) && fresh(nd) && fresh(ud) && fresh(td) && fresh(id)
    ensures vd.Length == r.vCount && nd.Length == r.nCount && ud.Length == r.uvCount
    ensures td.Length == r.tanCount && id.Length == r.indexCount
    ensures vd[..|r.contents.vertices|] == r.contents.vertices
    ensures nd[..|r.contents.normals|] == r.contents.normals
    ensures ud[..|r.contents.uvs|] == r.contents.uvs
    ensures td[..|r.contents.tangents|] == r.contents.tangents
    ensures id[..|r.contents.indices|] == r.contents.indices
  {
    var c := r.contents;
    vd, nd, ud, td, id := new real[r.vCount], new real[r.nCount], new real[r.uvCount],
                          new real[r.tanCount], new u32[r.indexCount];
    forall i | 0 <= i < |c.vertices| { vd[i] := c.vertices[i]; }
    forall i | 0 <= i < |c.normals| { nd[i] := c.normals[i]; }
    forall i | 0 <= i < |c.uvs| { ud[i] := c.uvs[i]; }
    forall i | 0 <= i < |c.tangents| { td[i] := c.tangents[i]; }
    forall i | 0 <= i < |c.indices| { id[i] := c.indices[i]; }
  }

  // ---------------------------------------------------------------- the mesh

  /** What `store_vbo` does with the binary cache. */
  datatype SaveOutcome = NotSaved | Saved(cells: seq<Cell>) | CannotOpenBin

  class Mesh {
    const recenterMesh: bool
    var name: string
    var vertexData: array?<real>
    var normalData: array?<real>
    var uvData: array?<real>
    var tangentData: array?<real>
    var indexData: array?<u32>
    var numVertices: nat
    var numNormals: nat
    var numUvs: nat
    var numTangents: nat
    var numIndices: nat
    var bufferNum: nat
    /** The data arrays were allocated by an import and not yet released
        by `StoreVbo`. */
    var dataLive: bool

    /** The arrays hold at least as many floats and indices as the counts
        say; an absent texture-coordinate or tangent array goes with a zero
        count. */
    predicate Valid()
      reads this
    {
      vertexData != null && normalData != null && indexData != null &&
      3 * numVertices <= vertexData.Length && 3 * numNormals <= normalData.Length &&
      numIndices <= indexData.Length &&
      (uvData == null ==> numUvs == 0) && (uvData != null ==> 2 * numUvs <= uvData.Length) &&
      (tangentData == null ==> numTangents == 0) &&
      (tangentData != null ==> 4 * numTangents <= tangentData.Length)
    }

    /** What the cache writer puts in the file after the header. */
    function Contents(): BinMesh
      requires Valid()
      reads this, vertexData, normalData, uvData, tangentData, indexData
    {
      BinMesh(vertexData[..3 * numVertices], normalData[..3 * numNormals],
              if uvData == null then [] else uvData[..2 * numUvs],
              if tangentData == null then [] else tangentData[..4 * numTangents],
              indexData[..numIndices])
    }

    constructor(recenter: bool)
      ensures recenterMesh == recenter && name == "" && !dataLive
      ensures vertexData == null && normalData == null && uvData == null
      ensures tangentData == null && indexData == null
    {
      recenterMesh := recenter;
      name := "";
      vertexData, normalData, uvData, tangentData, indexData := null, null, null, null, null;
      dataLive := false;
    }

    /** `trim_string`: leading and trailing spaces, tabs, newlines and
        carriage returns removed. */
    static method TrimString(str: string) returns (t: string)
      ensures t == Trimmed(str)
    {
      var location := 0;
      while location < |str| && IsTrimSpace(str[location])
        invariant location <= |str|
        invariant TrimLeft(str[location..]) == TrimLeft(str)
      {
        TrimLeftSkip(str, location);
        location := location + 1;
      }
      TrimLeftStops(str, location);
      t := str[location..];
      var last := |t|;
      assert t[..last] == t;
      while last > 0 && IsTrimSpace(t[last - 1])
        invariant last <= |t|
        invariant TrimRight(t[..last]) == TrimRight(TrimLeft(str))
      {
        TrimRightSkip(t, last);
        last := last - 1;
      }
      TrimRightStops(t, last);
      t := t[..last];
    }

    /** `center`: the bounding-box centre moved to the origin. */
    static method Center(vertices: array<Vec3>)
      modifies vertices
      ensures vertices.Length > 0 ==>
        vertices[..] == Translated(old(vertices[..]), BoxCenter(old(vertices[..])))
      ensures vertices.Length > 0 ==> Add(BoxMin(vertices[..]), BoxMax(vertices[..])) == Zero3
      ensures vertices.Length == 0 ==> vertices[..] == old(vertices[..])
    {
      if vertices.Length < 1 {
        return;
      }
      ghost var s := vertices[..];
      var maxPoint, minPoint := vertices[0], vertices[0];
      for i := 0 to vertices.Length
        invariant i == 0 ==> maxPoint == s[0] && minPoint == s[0]
        invariant i > 0 ==> maxPoint == BoxMax(s[..i]) && minPoint == BoxMin(s[..i])
      {
        assert s[..i + 1][..i] == s[..i];
        var point := vertices[i];
        if point.x > maxPoint.x { maxPoint := maxPoint.(x := point.x); }
        if point.y > maxPoint.y { maxPoint := maxPoint.(y := point.y); }
        if point.z > maxPoint.z { maxPoint := maxPoint.(z := point.z); }
        if point.x < minPoint.x { minPoint := minPoint.(x := point.x); }
        if point.y < minPoint.y { minPoint := minPoint.(y := point.y); }
        if point.z < minPoint.z { minPoint := minPoint.(z := point.z); }
      }
      assert s[..vertices.Length] == s;
      var center := Vec3((maxPoint.x + minPoint.x) / 2.0, (maxPoint.y + minPoint.y) / 2.0,
                         (maxPoint.z + minPoint.z) / 2.0);
      for i := 0 to vertices.Length
        invariant forall k :: 0 <= k < i ==> vertices[k] == Sub(s[k], center)
        invariant forall k :: i <= k < vertices.Length ==> vertices[k] == s[k]
      {
        vertices[i] := Sub(vertices[i], center);
      }
      assert vertices[..] == Translated(s, BoxCenter(s));
      CenteredBox(s);
    }

    /** The arrays and counts hold the welded mesh `w` with the output
        normals `normals`: positions, normals and texture coordinates
        flattened, the output indices copied, no tangents. */
    predicate HoldsWelded(w: Welded, normals: seq<Vec3>)
      reads this, vertexData, normalData, uvData, tangentData, indexData
    {
      Valid() && dataLive && tangentData == null && uvData != null &&
      numVertices == |w.keys| && numNormals == |w.keys| && numUvs == |w.keys| &&
      numTangents == 0 && numIndices == |w.indices| &&
      vertexData[..] == FlatVec3(w.vertices) && normalData[..] == FlatVec3(normals) &&
      uvData[..] == FlatVec2(w.uvs) && indexData[..] == w.indices
    }

    /** Nothing but the name differs from the state `old` had. */
    twostate predicate DataUnchanged()
      reads this
    {
      vertexData == old(vertexData) && normalData == old(normalData) && uvData == old(uvData) &&
      tangentData == old(tangentData) && indexData == old(indexData) &&
      numVertices == old(numVertices) && numNormals == old(numNormals) && numUvs == old(numUvs) &&
      numTangents == old(numTangents) && numIndices == old(numIndices) && dataLive == old(dataLive) &&
      bufferNum == old(bufferNum)
    }

    /** `import_obj_file`.  `file` is the text of the file (`None`: it
        cannot be opened), `num` the float conversion of `>>`, `maths`
        supplies `normalize`.  Nothing but the name changes when the file
        cannot be opened or a face has more than three references;
        otherwise the arrays hold the welded, flattened mesh with every
        summed normal normalised. */
    method ImportObjFile(fileName: string, file: Option<string>, num: string -> real, maths: Maths)
      requires file.Some? ==> Importable(file.value, num)
      modifies this
      ensures name == fileName
      ensures file.None? || ObjContents(file.value, num).None? ==> DataUnchanged()
      ensures file.Some? && ObjContents(file.value, num).Some? ==>
        var w := Weld(ExpandAll(ObjContents(file.value, num).value));
        HoldsWelded(w, NormalizeAll(maths.normalize, w.normals)) &&
        fresh(vertexData) && fresh(normalData) && fresh(uvData) && fresh(indexData) &&
        bufferNum == old(bufferNum)
    {
      name := fileName;
      if file.None? {
        return;
      }
      var parsed := ParseObjText(file.value, num);
      if parsed.None? {
        return;
      }
      BuildFromObj(parsed.value, maths);
    }

    /** The part of `import_obj_file` after the statement loop. */
    method BuildFromObj(d: ObjData, maths: Maths)
      requires Expandable(d) && |d.refs| <= U32Max
      modifies this
      ensures name == old(name) && bufferNum == old(bufferNum)
      ensures var w := Weld(ExpandAll(d)); HoldsWelded(w, NormalizeAll(maths.normalize, w.normals))
      ensures fresh(vertexData) && fresh(normalData) && fresh(uvData) && fresh(indexData)
    {
      var w, outN := WeldObj(d, maths.normalize);
      if recenterMesh {
        CenterCopy(d.positions);
      }
      var vd, nd, ud, id := WeldedArrays(w, outN);
      Store(w, outN, vd, nd, ud, id);
    }

    /** The counts set and the filled arrays installed. */
    method Store(w: Welded, outN: seq<Vec3>, vd: array<real>, nd: array<real>, ud: array<real>, id: array<u32>)
      requires |w.vertices| == |w.keys| && |w.uvs| == |w.keys| && |outN| == |w.keys|
      requires vd[..] == FlatVec3(w.vertices) && nd[..] == FlatVec3(outN) && ud[..] == FlatVec2(w.uvs)
      requires id[..] == w.indices
      modifies this
      ensures name == old(name) && bufferNum == old(bufferNum)
      ensures HoldsWelded(w, outN)
      ensures vertexData == vd && normalData == nd && uvData == ud && indexData == id
    {
      SetCounts(|w.keys|, |w.keys|, |w.keys|, 0, |w.indices|);
      SetArrays(vd, nd, ud, null, id);
      dataLive := true;
    }

    /** Assignment of the five element counts. */
    method SetCounts(nv: nat, nn: nat, nu: nat, nt: nat, ni: nat)
      modifies this
      ensures numVertices == nv && numNormals == nn && numUvs == nu && numTangents == nt && numIndices == ni
      ensures vertexData == old(vertexData) && normalData == old(normalData) && uvData == old(uvData)
      ensures tangentData == old(tangentData) && indexData == old(indexData)
      ensures name == old(name) && bufferNum == old(bufferNum) && dataLive == old(dataLive)
    {
      numVertices := nv;
      numNormals := nn;
      numUvs := nu;
      numTangents := nt;
      numIndices := ni;
    }

    /** Assignment of the five data arrays. */
    method SetArrays(vd: array?<real>, nd: array?<real>, ud: array?<real>, td: array?<real>, id: array?<u32>)
      modifies this
      ensures vertexData == vd && normalData == nd && uvData == ud && tangentData == td && indexData == id
      ensures numVertices == old(numVertices) && numNormals == old(numNormals) && numUvs == old(numUvs)
      ensures numTangents == old(numTangents) && numIndices == old(numIndices)
      ensures name == old(name) && bufferNum == old(bufferNum) && dataLive == old(dataLive)
    {
      vertexData := vd;
      normalData := nd;
      uvData := ud;
      tangentData := td;
      indexData := id;
    }

    /** The arrays were allocated with the element counts of `r` and hold
        the elements read; the counts are the element counts divided by 3,
        3, 2, 4 and 1. */
    predicate HoldsRead(r: BinRead)
      reads this, vertexData, normalData, uvData, tangentData, indexData
    {
      var c := r.contents;
      dataLive &&
      vertexData != null && normalData != null && uvData != null && tangentData != null && indexData != null &&
      vertexData.Length == r.vCount && normalData.Length == r.nCount && uvData.Length == r.uvCount &&
      tangentData.Length == r.tanCount && indexData.Length == r.indexCount &&
      |c.vertices| <= r.vCount && vertexData[..|c.vertices|] == c.vertices &&
      |c.normals| <= r.nCount && normalData[..|c.normals|] == c.normals &&
      |c.uvs| <= r.uvCount && uvData[..|c.uvs|] == c.uvs &&
      |c.tangents| <= r.tanCount && tangentData[..|c.tangents|] == c.tangents &&
      |c.indices| <= r.indexCount && indexData[..|c.indices|] == c.indices &&
      numVertices == r.vCount / 3 && numNormals == r.nCount / 3 && numUvs == r.uvCount / 2 &&
      numTangents == r.tanCount / 4 && numIndices == r.indexCount
    }

    /** `import_bin_file`.  `file` is the file as cells (`None`: it cannot
        be opened); `re` reinterprets a cell read as the other kind. */
    method ImportBinFile(fileName: string, file: Option<seq<Cell>>, re: Reinterpret)
      modifies this
      ensures name == fileName && bufferNum == old(bufferNum)
      ensures file.None? ==> DataUnchanged()
      ensures file.Some? ==> HoldsRead(Decode(file.value, re)) && Valid()
      ensures file.Some? ==>
        fresh(vertexData) && fresh(normalData) && fresh(uvData) && fresh(tangentData) && fresh(indexData)
    {
      name := fileName;
      if file.None? {
        return;
      }
      Load(Decode(file.value, re));
    }

    /** The allocations, block reads and count updates of `import_bin_file`. */
    method Load(r: BinRead)
      requires |r.contents.vertices| <= r.vCount && |r.contents.normals| <= r.nCount
      requires |r.contents.uvs| <= r.uvCount && |r.contents.tangents| <= r.tanCount
      requires |r.contents.indices| <= r.indexCount
      modifies this
      ensures name == old(name) && bufferNum == old(bufferNum)
      ensures HoldsRead(r) && Valid()
      ensures fresh(vertexData) && fresh(normalData) && fresh(uvData) && fresh(tangentData) && fresh(indexData)
    {
      var vd, nd, ud, td, id := ReadArrays(r);
      SetCounts(r.vCount / 3, r.nCount / 3, r.uvCount / 2, r.tanCount / 4, r.indexCount);
      SetArrays(vd, nd, ud, td, id);
      dataLive := true;
      DivBounds(r.vCount, 3);
      DivBounds(r.nCount, 3);
      DivBounds(r.uvCount, 2);
      DivBounds(r.tanCount, 4);
    }

    /** A mesh loaded from a file whose header counts are the exact
        element counts of its arrays, whole numbers of vectors, holds
        exactly those arrays, and the counts of vectors. */
    lemma ContentsOfRead(r: BinRead, nv: nat, nn: nat, nu: nat, nt: nat)
      requires HoldsRead(r)
      requires r.vCount == |r.contents.vertices| == 3 * nv && r.nCount == |r.contents.normals| == 3 * nn
      requires r.uvCount == |r.contents.uvs| == 2 * nu && r.tanCount == |r.contents.tangents| == 4 * nt
      requires r.indexCount == |r.contents.indices|
      ensures Valid() && Contents() == r.contents
      ensures numVertices == nv && numNormals == nn && numUvs == nu && numTangents == nt
      ensures numIndices == r.indexCount
    {
      DivBounds(r.vCount, 3);
      DivBounds(r.nCount, 3);
      DivBounds(r.uvCount, 2);
      DivBounds(r.tanCount, 4);
      assert vertexData[..3 * numVertices] == r.contents.vertices;
      assert normalData[..3 * numNormals] == r.contents.normals;
      assert uvData[..2 * numUvs] == r.contents.uvs;
      assert tangentData[..4 * numTangents] == r.contents.tangents;
    }

    /** The count bounds under which the `int` header values of the cache
        writer do not overflow. */
    predicate HeaderFits()
      reads this
    {
      3 * numVertices <= 0x7FFF_FFFF && 3 * numNormals <= 0x7FFF_FFFF && 2 * numUvs <= 0x7FFF_FFFF &&
      4 * numTangents <= 0x7FFF_FFFF && numIndices <= 0x7FFF_FFFF
    }

    /** `store_vbo`: one more buffer when there are tangents; with
        `saveBin`, the cache file (`writable`: it can be created) holds the
        header of element counts and the arrays; afterwards the arrays are
        released.  A cache file that cannot be created throws before the
        release. */
    method StoreVbo(saveBin: bool, writable: bool) returns (outcome: SaveOutcome)
      requires dataLive && Valid()
      requires saveBin && writable ==> HeaderFits()
      modifies this
      ensures bufferNum == if numTangents > 0 then 5 else 4
      ensures !saveBin ==> outcome == NotSaved && !dataLive
      ensures saveBin && !writable ==> outcome == CannotOpenBin && dataLive
      ensures saveBin && writable ==> outcome == Saved(Encode(old(Contents()))) && !dataLive
      ensures name == old(name) && vertexData == old(vertexData) && normalData == old(normalData) &&
              uvData == old(uvData) && tangentData == old(tangentData) && indexData == old(indexData)
      ensures numVertices == old(numVertices) && numNormals == old(numNormals) && numUvs == old(numUvs) &&
              numTangents == old(numTangents) && numIndices == old(numIndices)
    {
      bufferNum := 4;
      if numTangents > 0 {
        bufferNum := bufferNum + 1;
      }
      outcome := NotSaved;
      if saveBin {
        if !writable {
          return CannotOpenBin;
        }
        var m := Contents();
        outcome := Saved(Encode(m));
      }
      dataLive := false;
    }
  }

  /** Saving a mesh's cache and importing it into another mesh reproduces
      the counts and the arrays. */
  method CacheRoundTrip(src: Mesh, dst: Mesh, fileName: string, re: Reinterpret)
    requires src != dst && src.dataLive && src.Valid() && src.HeaderFits()
    modifies src, dst
    ensures dst.Valid() && dst.Contents() == old(src.Contents())
    ensures dst.numVertices == old(src.numVertices) && dst.numNormals == old(src.numNormals)
    ensures dst.numUvs == old(src.numUvs) && dst.numTangents == old(src.numTangents)
    ensures dst.numIndices == old(src.numIndices)
  {
    ghost var m := src.Contents();
    ghost var nv, nn, nu, nt, ni := src.numVertices, src.numNormals, src.numUvs, src.numTangents, src.numIndices;
    assert |m.vertices| == 3 * nv && |m.normals| == 3 * nn && |m.uvs| == 2 * nu;
    assert |m.tangents| == 4 * nt && |m.indices| == ni;
    var outcome := src.StoreVbo(true, true);
    assert outcome.cells == Encode(m);
    DecodeEncode(m, re);
    ghost var r := Decode(outcome.cells, re);
    assert r == BinRead(3 * nv, 3 * nn, 2 * nu, 4 * nt, ni, m);
    dst.ImportBinFile(fileName, Some(outcome.cells), re);
    assert dst.HoldsRead(r);
    dst.ContentsOfRead(r, nv, nn, nu, nt);
  }
}

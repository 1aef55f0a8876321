/** What the OBJ importer computes after parsing, as functions: the
    expansion of face references into a vertex stream, the welding of
    equivalent vertices into an indexed vertex buffer (normals of welded
    vertices summed), and the flattening of vectors into float arrays. */
module MeshIndexer {
  import opened Wrappers
  import opened Geometry
  import opened PackedVertices
  import opened ObjFormat

  // ---------------------------------------------------------------- expansion

  /** What the expansion loop needs to stay in bounds: whole triangles, and
      every 1-based index naming an existing position, texture coordinate
      and normal.  (An index of 0, a negative one, or -1 for a missing
      texture or normal index, wraps around to a huge unsigned index.) */
  predicate Expandable(d: ObjData)
  {
    |d.refs| % 3 == 0 &&
    forall k :: 0 <= k < |d.refs| ==> RefInRange(d, d.refs[k])
  }

  predicate RefInRange(d: ObjData, r: FaceRef)
  {
    1 <= r.p <= |d.positions| && 1 <= r.t <= |d.uvs| && 1 <= r.n <= |d.normals|
  }

  /** The vertex the k-th reference denotes. */
  function Expanded(d: ObjData, k: nat): PackedVertex
    requires k < |d.refs| && RefInRange(d, d.refs[k])
  {
    var r := d.refs[k];
    PackedVertex(d.positions[r.p - 1], d.uvs[r.t - 1], d.normals[r.n - 1])
  }

  /** The vertex stream of the expansion: one vertex per reference. */
  function ExpandAll(d: ObjData): (s: seq<PackedVertex>)
    requires Expandable(d)
    ensures |s| == |d.refs|
  {
    seq(|d.refs|, k requires 0 <= k < |d.refs| => Expanded(d, k))
  }

  /** The packed vertex stream of three parallel attribute sequences. */
  function Zip(vs: seq<Vec3>, uvs: seq<Vec2>, ns: seq<Vec3>): (s: seq<PackedVertex>)
    requires |vs| == |uvs| == |ns|
    ensures |s| == |vs|
    ensures forall i :: 0 <= i < |s| ==> s[i] == PackedVertex(vs[i], uvs[i], ns[i])
  {
    seq(|vs|, i requires 0 <= i < |vs| => PackedVertex(vs[i], uvs[i], ns[i]))
  }

  // ---------------------------------------------------------------- welding

  /** The state of the welding loop: the keys inserted in the map, in
      insertion order (key k maps to output index k), the output vertex,
      texture-coordinate and normal sequences, and the output indices. */
  datatype Welded = Welded(keys: seq<PackedVertex>, vertices: seq<Vec3>, uvs: seq<Vec2>,
                           normals: seq<Vec3>, indices: seq<nat>)

  /** Output k holds the position and uv of key k, and all output
      sequences have one entry per key. */
  predicate WellFormed(w: Welded)
  {
    |w.vertices| == |w.keys| && |w.uvs| == |w.keys| && |w.normals| == |w.keys| &&
    (forall k :: 0 <= k < |w.keys| ==> w.vertices[k] == w.keys[k].position && w.uvs[k] == w.keys[k].uv) &&
    forall j :: 0 <= j < |w.indices| ==> w.indices[j] < |w.keys|
  }

  const NoneWelded: Welded := Welded([], [], [], [], [])

  /** The map lookup: the first inserted key the comparator cannot tell
      apart from `v`. */
  function FindKey(keys: seq<PackedVertex>, v: PackedVertex): (r: Option<nat>)
    ensures r.Some? ==> r.value < |keys| && Equivalent(keys[r.value], v)
    ensures r.Some? ==> forall i :: 0 <= i < r.value ==> !Equivalent(keys[i], v)
    ensures r.None? ==> forall i :: 0 <= i < |keys| ==> !Equivalent(keys[i], v)
  {
    FindKeyFrom(keys, v, 0)
  }

  function FindKeyFrom(keys: seq<PackedVertex>, v: PackedVertex, from: nat): (r: Option<nat>)
    requires from <= |keys|
    ensures r.Some? ==> from <= r.value < |keys| && Equivalent(keys[r.value], v)
    ensures r.Some? ==> forall i :: from <= i < r.value ==> !Equivalent(keys[i], v)
    ensures r.None? ==> forall i :: from <= i < |keys| ==> !Equivalent(keys[i], v)
    decreases |keys| - from
  {
    if from == |keys| then None
    else if Equivalent(keys[from], v) then Some(from)
    else FindKeyFrom(keys, v, from + 1)
  }

  /** One iteration of the welding loop. */
  function WeldStep(w: Welded, v: PackedVertex): (r: Welded)
    requires WellFormed(w)
    ensures WellFormed(r)
  {
    match FindKey(w.keys, v)
    case Some(k) =>
      w.(normals := w.normals[k := Add(w.normals[k], v.normal)], indices := w.indices + [k])
    case None =>
      Welded(w.keys + [v], w.vertices + [v.position], w.uvs + [v.uv],
             w.normals + [v.normal], w.indices + [|w.keys|])
  }

  /** The welding loop run over the whole stream. */
  function Weld(stream: seq<PackedVertex>): (w: Welded)
    ensures WellFormed(w)
    ensures |w.indices| == |stream|
  {
    if |stream| == 0 then NoneWelded
    else WeldStep(Weld(stream[..|stream| - 1]), stream[|stream| - 1])
  }

  /** Welding never produces more output vertices than input ones. */
  lemma {:induction false} WeldKeysBound(stream: seq<PackedVertex>)
    ensures |Weld(stream).keys| <= |stream|
  {
    if |stream| > 0 {
      WeldKeysBound(stream[..|stream| - 1]);
    }
  }

  /** The sum of the normals of the stream entries sent to output `k`. */
  function NormalSum(stream: seq<PackedVertex>, indices: seq<nat>, k: nat): Vec3
    requires |indices| == |stream|
  {
    if |stream| == 0 then Zero3
    else
      var n := |stream| - 1;
      Add(NormalSum(stream[..n], indices[..n], k), if indices[n] == k then stream[n].normal else Zero3)
  }

  lemma {:induction false} NormalSumUnused(stream: seq<PackedVertex>, indices: seq<nat>, k: nat)
    requires |indices| == |stream|
    requires forall j :: 0 <= j < |indices| ==> indices[j] != k
    ensures NormalSum(stream, indices, k) == Zero3
  {
    if |stream| > 0 {
      var n := |stream| - 1;
      NormalSumUnused(stream[..n], indices[..n], k);
    }
  }

  /** What the welded result promises about the stream it came from:
      one index per stream entry, each naming a key the comparator cannot
      tell apart from that entry; keys pairwise distinguishable (which
      holds for the first-match search of `FindKey`); each output normal
      the sum of the normals welded into it; and each key an entry of the
      stream that is sent to it. */
  predicate WeldCorrect(stream: seq<PackedVertex>, w: Welded)
  {
    WellFormed(w) &&
    |w.indices| == |stream| &&
    (forall j :: 0 <= j < |stream| ==> Equivalent(w.keys[w.indices[j]], stream[j])) &&
    (forall a, b :: 0 <= a < b < |w.keys| ==> !Equivalent(w.keys[a], w.keys[b])) &&
    (forall k :: 0 <= k < |w.keys| ==> w.normals[k] == NormalSum(stream, w.indices, k)) &&
    KeysFromStream(stream, w)
  }

  lemma EquivalentSymmetric(a: PackedVertex, b: PackedVertex)
    ensures Equivalent(a, b) <==> Equivalent(b, a)
  {
  }

  /** The welded state after n entries is the prefix of the final one. */
  lemma WeldLast(stream: seq<PackedVertex>)
    requires |stream| > 0
    ensures Weld(stream) == WeldStep(Weld(stream[..|stream| - 1]), stream[|stream| - 1])
    ensures Weld(stream).indices[..|stream| - 1] == Weld(stream[..|stream| - 1]).indices
  {
  }

  /** One welding step keeps the earlier keys and indices and sends the
      new entry to a key equivalent to it. */
  lemma WeldStepMatches(w: Welded, v: PackedVertex)
    requires WellFormed(w)
    ensures var r := WeldStep(w, v);
      |w.keys| <= |r.keys| && r.keys[..|w.keys|] == w.keys &&
      |r.indices| == |w.indices| + 1 && r.indices[..|w.indices|] == w.indices &&
      r.indices[|w.indices|] < |r.keys| && Equivalent(r.keys[r.indices[|w.indices|]], v)
  {
    var r := WeldStep(w, v);
    match FindKey(w.keys, v)
    case Some(k) =>
      assert r.indices == w.indices + [k];
    case None =>
      assert r.keys == w.keys + [v] && r.indices == w.indices + [|w.keys|];
      assert r.keys[|w.keys|] == v;
  }

  /** Each stream entry is sent to a key equivalent to it. */
  lemma {:induction false} WeldMatches(stream: seq<PackedVertex>)
    ensures forall j :: 0 <= j < |stream| ==> Equivalent(Weld(stream).keys[Weld(stream).indices[j]], stream[j])
  {
    if |stream| > 0 {
      var n := |stream| - 1;
      WeldMatches(stream[..n]);
      var w := Weld(stream[..n]);
      var r := WeldStep(w, stream[n]);
      assert Weld(stream) == r;
      WeldStepMatches(w, stream[n]);
      forall j | 0 <= j < |stream|
        ensures Equivalent(r.keys[r.indices[j]], stream[j])
      {
        if j < n {
          assert r.indices[j] == w.indices[j] && r.keys[w.indices[j]] == w.keys[w.indices[j]];
          assert stream[..n][j] == stream[j];
        }
      }
    }
  }

  /** With the first-match search, no two keys are equivalent.  A tree
      search with this non-transitive comparator does not promise this. */
  lemma {:induction false} WeldKeysDistinct(stream: seq<PackedVertex>)
    ensures forall a, b :: 0 <= a < b < |Weld(stream).keys| ==> !Equivalent(Weld(stream).keys[a], Weld(stream).keys[b])
  {
    if |stream| > 0 {
      var n := |stream| - 1;
      WeldKeysDistinct(stream[..n]);
      WeldLast(stream);
      var w, r := Weld(stream[..n]), Weld(stream);
      if FindKey(w.keys, stream[n]).None? {
        forall a | 0 <= a < |w.keys| ensures !Equivalent(r.keys[a], r.keys[|w.keys|]) {
          EquivalentSymmetric(w.keys[a], stream[n]);
        }
      }
    }
  }

  /** Output normal k is the sum of the normals of the entries sent to k. */
  predicate NormalsSummed(stream: seq<PackedVertex>, w: Welded)
    requires |w.indices| == |stream| && |w.normals| == |w.keys|
  {
    forall k :: 0 <= k < |w.keys| ==> w.normals[k] == NormalSum(stream, w.indices, k)
  }

  /** Every key is an entry of the stream that was sent to it. */
  predicate KeysFromStream(stream: seq<PackedVertex>, w: Welded)
    requires |w.indices| == |stream|
  {
    forall k :: 0 <= k < |w.keys| ==> KeyFromEntry(stream, w, k)
  }

  /** Some entry of the stream is key k and is sent to k. */
  predicate KeyFromEntry(stream: seq<PackedVertex>, w: Welded, k: nat)
    requires |w.indices| == |stream| && k < |w.keys|
  {
    exists j :: 0 <= j < |stream| && w.indices[j] == k && stream[j] == w.keys[k]
  }

  lemma NormalsSummedStep(pre: seq<PackedVertex>, w: Welded, v: PackedVertex)
    requires WellFormed(w) && |w.indices| == |pre| && NormalsSummed(pre, w)
    ensures |WeldStep(w, v).indices| == |pre + [v]|
    ensures NormalsSummed(pre + [v], WeldStep(w, v))
  {
    var stream, r, n := pre + [v], WeldStep(w, v), |pre|;
    assert stream[..n] == pre && stream[n] == v;
    assert r.indices[..n] == w.indices;
    match FindKey(w.keys, v)
    case Some(k0) =>
      forall k | 0 <= k < |r.keys|
        ensures r.normals[k] == NormalSum(stream, r.indices, k)
      {
        assert NormalSum(stream, r.indices, k) ==
          Add(NormalSum(pre, w.indices, k), if k == k0 then v.normal else Zero3);
      }
    case None =>
      forall k | 0 <= k < |r.keys|
        ensures r.normals[k] == NormalSum(stream, r.indices, k)
      {
        assert NormalSum(stream, r.indices, k) ==
          Add(NormalSum(pre, w.indices, k), if k == |w.keys| then v.normal else Zero3);
        if k == |w.keys| {
          NormalSumUnused(pre, w.indices, k);
        }
      }
  }

  lemma KeysFromStreamStep(pre: seq<PackedVertex>, w: Welded, v: PackedVertex)
    requires WellFormed(w) && |w.indices| == |pre| && KeysFromStream(pre, w)
    ensures |WeldStep(w, v).indices| == |pre + [v]|
    ensures KeysFromStream(pre + [v], WeldStep(w, v))
  {
    var stream, r, n := pre + [v], WeldStep(w, v), |pre|;
    assert forall j :: 0 <= j < n ==> stream[j] == pre[j] && r.indices[j] == w.indices[j];
    assert forall k :: 0 <= k < |w.keys| ==> r.keys[k] == w.keys[k];
    forall k | 0 <= k < |r.keys|
      ensures KeyFromEntry(stream, r, k)
    {
      if k < |w.keys| {
        assert KeyFromEntry(pre, w, k);
        var j :| 0 <= j < |pre| && w.indices[j] == k && pre[j] == w.keys[k];
        assert r.indices[j] == k && stream[j] == r.keys[k];
      } else {
        assert k == |w.keys| && r.keys == w.keys + [v];
        assert r.indices[n] == k && stream[n] == r.keys[k];
      }
    }
  }

  /** Each output normal is the sum of the normals welded into it, and
      each key is a stream entry that is sent to it. */
  lemma {:induction false} WeldSumsAndKeys(stream: seq<PackedVertex>)
    ensures NormalsSummed(stream, Weld(stream))
    ensures KeysFromStream(stream, Weld(stream))
  {
    if |stream| > 0 {
      var n := |stream| - 1;
      var pre, v := stream[..n], stream[n];
      WeldSumsAndKeys(pre);
      assert stream == pre + [v];
      NormalsSummedStep(pre, Weld(pre), v);
      KeysFromStreamStep(pre, Weld(pre), v);
    }
  }

  /** Welding meets `WeldCorrect` for every stream. */
  lemma WeldIsCorrect(stream: seq<PackedVertex>)
    ensures WeldCorrect(stream, Weld(stream))
  {
    WeldMatches(stream);
    WeldKeysDistinct(stream);
    WeldSumsAndKeys(stream);
  }

  /** A stream whose entries are pairwise distinguishable is not welded
      at all: every entry becomes its own output vertex. */
  lemma {:induction false} WeldDistinct(stream: seq<PackedVertex>)
    requires forall a, b :: 0 <= a < b < |stream| ==> !Equivalent(stream[a], stream[b])
    ensures Weld(stream).keys == stream
    ensures forall j :: 0 <= j < |stream| ==> Weld(stream).indices[j] == j
  {
    if |stream| > 0 {
      var n := |stream| - 1;
      WeldDistinct(stream[..n]);
      forall i | 0 <= i < n ensures !Equivalent(stream[..n][i], stream[n]) {
        assert stream[..n][i] == stream[i];
      }
      assert FindKey(stream[..n], stream[n]).None?;
      var r := Weld(stream);
      assert r.keys == stream[..n] + [stream[n]] == stream;
      forall j | 0 <= j < |stream| ensures r.indices[j] == j {
        if j < n { assert r.indices[j] == Weld(stream[..n]).indices[j]; }
      }
    }
  }

  /** Every normal passed through `normalize`, once. */
  function NormalizeAll(normalize: Vec3 -> Vec3, ns: seq<Vec3>): (r: seq<Vec3>)
    ensures |r| == |ns|
  {
    seq(|ns|, i requires 0 <= i < |ns| => normalize(ns[i]))
  }

  // ---------------------------------------------------------------- flattening

  /** Vectors laid out as consecutive x, y, z floats. */
  function FlatVec3(vs: seq<Vec3>): (r: seq<real>)
    ensures |r| == 3 * |vs|
  {
    if |vs| == 0 then []
    else
      var v := vs[|vs| - 1];
      FlatVec3(vs[..|vs| - 1]) + [v.x, v.y, v.z]
  }

  /** Vectors laid out as consecutive x, y floats. */
  function FlatVec2(vs: seq<Vec2>): (r: seq<real>)
    ensures |r| == 2 * |vs|
  {
    if |vs| == 0 then []
    else
      var v := vs[|vs| - 1];
      FlatVec2(vs[..|vs| - 1]) + [v.x, v.y]
  }

  /** Reading the floats back in threes. */
  function UnflattenVec3(r: seq<real>): (vs: seq<Vec3>)
    requires |r| % 3 == 0
    ensures |vs| == |r| / 3
  {
    if |r| == 0 then []
    else UnflattenVec3(r[..|r| - 3]) + [Vec3(r[|r| - 3], r[|r| - 2], r[|r| - 1])]
  }

  /** Reading the floats back in twos. */
  function UnflattenVec2(r: seq<real>): (vs: seq<Vec2>)
    requires |r| % 2 == 0
    ensures |vs| == |r| / 2
  {
    if |r| == 0 then []
    else UnflattenVec2(r[..|r| - 2]) + [Vec2(r[|r| - 2], r[|r| - 1])]
  }

  /** Component c of vector i sits at float 3i + c. */
  lemma {:induction false} FlatVec3At(vs: seq<Vec3>, i: nat)
    requires i < |vs|
    ensures FlatVec3(vs)[3 * i] == vs[i].x
    ensures FlatVec3(vs)[3 * i + 1] == vs[i].y
    ensures FlatVec3(vs)[3 * i + 2] == vs[i].z
  {
    var n := |vs| - 1;
    if i < n {
      FlatVec3At(vs[..n], i);
    }
  }

  /** Component c of vector i sits at float 2i + c. */
  lemma {:induction false} FlatVec2At(vs: seq<Vec2>, i: nat)
    requires i < |vs|
    ensures FlatVec2(vs)[2 * i] == vs[i].x
    ensures FlatVec2(vs)[2 * i + 1] == vs[i].y
  {
    var n := |vs| - 1;
    if i < n {
      FlatVec2At(vs[..n], i);
    }
  }

  /** Flattening loses nothing. */
  lemma {:induction false} UnflattenFlatVec3(vs: seq<Vec3>)
    ensures UnflattenVec3(FlatVec3(vs)) == vs
  {
    if |vs| > 0 {
      var n := |vs| - 1;
      var f := FlatVec3(vs);
      assert f[..|f| - 3] == FlatVec3(vs[..n]);
      UnflattenFlatVec3(vs[..n]);
      assert vs == vs[..n] + [vs[n]];
    }
  }

  /** Flattening loses nothing. */
  lemma {:induction false} UnflattenFlatVec2(vs: seq<Vec2>)
    ensures UnflattenVec2(FlatVec2(vs)) == vs
  {
    if |vs| > 0 {
      var n := |vs| - 1;
      var f := FlatVec2(vs);
      assert f[..|f| - 2] == FlatVec2(vs[..n]);
      UnflattenFlatVec2(vs[..n]);
      assert vs == vs[..n] + [vs[n]];
    }
  }
}

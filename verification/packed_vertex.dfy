/** The vertex key used to weld identical vertices when a mesh is imported:
    a position, a texture coordinate and a normal, ordered by an
    epsilon-tolerant lexicographic comparison. */
module PackedVertices {
  import opened Geometry

  /** The tolerance every component comparison uses (`0.00001f`). */
  const Margin: real := 0.00001

  function RealAbs(x: real): real { if x < 0.0 then -x else x }

  /** `is_equal`: two floats are "equal" when they differ by less than `margin`. */
  predicate IsEqual(v1: real, v2: real, margin: real)
  {
    RealAbs(v1 - v2) < margin
  }

  lemma IsEqualSymmetric(v1: real, v2: real, margin: real)
    ensures IsEqual(v1, v2, margin) <==> IsEqual(v2, v1, margin)
  {
  }

  datatype PackedVertex = PackedVertex(position: Vec3, uv: Vec2, normal: Vec3)

  /** The eight components in the order the comparator visits them. */
  function Components(v: PackedVertex): (c: seq<real>)
    ensures |c| == 8
  {
    [v.position.x, v.position.y, v.position.z, v.uv.x, v.uv.y, v.normal.x, v.normal.y, v.normal.z]
  }

  /** `operator<` on packed vertices: the first component (in the order
      above) that is not within `Margin` of its counterpart decides;
      if all eight are within `Margin`, neither vertex is less. */
  predicate Less(a: PackedVertex, b: PackedVertex)
  {
    if !IsEqual(a.position.x, b.position.x, Margin) then a.position.x < b.position.x
    else if !IsEqual(a.position.y, b.position.y, Margin) then a.position.y < b.position.y
    else if !IsEqual(a.position.z, b.position.z, Margin) then a.position.z < b.position.z
    else if !IsEqual(a.uv.x, b.uv.x, Margin) then a.uv.x < b.uv.x
    else if !IsEqual(a.uv.y, b.uv.y, Margin) then a.uv.y < b.uv.y
    else if !IsEqual(a.normal.x, b.normal.x, Margin) then a.normal.x < b.normal.x
    else if !IsEqual(a.normal.y, b.normal.y, Margin) then a.normal.y < b.normal.y
    else if !IsEqual(a.normal.z, b.normal.z, Margin) then a.normal.z < b.normal.z
    else false
  }

  /** Two keys the map cannot tell apart: neither is less than the other. */
  predicate Equivalent(a: PackedVertex, b: PackedVertex)
  {
    !Less(a, b) && !Less(b, a)
  }

  /** Components `j < k` of the two sequences are pairwise within `Margin`. */
  predicate CloseBefore(ca: seq<real>, cb: seq<real>, k: nat)
    requires k <= |ca| == |cb|
  {
    forall j :: 0 <= j < k ==> IsEqual(ca[j], cb[j], Margin)
  }

  /** `k` is the first position whose components are not within `Margin`. */
  predicate FirstDifference(ca: seq<real>, cb: seq<real>, k: nat)
    requires |ca| == |cb|
  {
    k < |ca| && CloseBefore(ca, cb, k) && !IsEqual(ca[k], cb[k], Margin)
  }

  /** Reference ordering: lexicographic comparison of component sequences
      in which components within `Margin` count as equal. */
  predicate LexLess(ca: seq<real>, cb: seq<real>)
    requires |ca| == |cb|
    decreases |ca|
  {
    |ca| > 0 &&
    if !IsEqual(ca[0], cb[0], Margin) then ca[0] < cb[0] else LexLess(ca[1..], cb[1..])
  }

  /** `LexLess` holds exactly when there is a first differing component and,
      at it, the left sequence is smaller. */
  lemma {:induction false} LexLessFirstDifference(ca: seq<real>, cb: seq<real>)
    requires |ca| == |cb|
    ensures LexLess(ca, cb) <==> exists k: nat :: FirstDifference(ca, cb, k) && ca[k] < cb[k]
    ensures (forall k: nat :: !FirstDifference(ca, cb, k)) <==> CloseBefore(ca, cb, |ca|)
    decreases |ca|
  {
    if |ca| == 0 {
      assert forall k: nat :: !FirstDifference(ca, cb, k);
    } else {
      LexLessFirstDifference(ca[1..], cb[1..]);
      if !IsEqual(ca[0], cb[0], Margin) {
        assert FirstDifference(ca, cb, 0);
        assert forall k: nat :: FirstDifference(ca, cb, k) ==> k == 0;
      } else {
        forall k: nat | FirstDifference(ca, cb, k)
          ensures k > 0 && FirstDifference(ca[1..], cb[1..], k - 1)
        {
        }
        forall k: nat | FirstDifference(ca[1..], cb[1..], k)
          ensures FirstDifference(ca, cb, k + 1)
        {
          assert forall j :: 0 < j < k + 1 ==> ca[j] == ca[1..][j - 1] && cb[j] == cb[1..][j - 1];
        }
        if CloseBefore(ca[1..], cb[1..], |ca| - 1) {
          assert forall j :: 0 < j < |ca| ==> ca[j] == ca[1..][j - 1] && cb[j] == cb[1..][j - 1];
        }
      }
    }
  }

  /** One unfolding of `LexLess` on the suffixes starting at `k`. */
  lemma LexLessStep(ca: seq<real>, cb: seq<real>, k: nat)
    requires k < |ca| == |cb|
    ensures LexLess(ca[k..], cb[k..]) ==
      if !IsEqual(ca[k], cb[k], Margin) then ca[k] < cb[k] else LexLess(ca[k + 1..], cb[k + 1..])
  {
    assert ca[k..][1..] == ca[k + 1..];
    assert cb[k..][1..] == cb[k + 1..];
  }

  /** The comparator is the reference ordering on `Components`. */
  lemma LessIsLexLess(a: PackedVertex, b: PackedVertex)
    ensures Less(a, b) == LexLess(Components(a), Components(b))
  {
    var ca, cb := Components(a), Components(b);
    assert ca[0..] == ca && cb[0..] == cb;
    LexLessStep(ca, cb, 0);
    LexLessStep(ca, cb, 1);
    LexLessStep(ca, cb, 2);
    LexLessStep(ca, cb, 3);
    LexLessStep(ca, cb, 4);
    LexLessStep(ca, cb, 5);
    LexLessStep(ca, cb, 6);
    LexLessStep(ca, cb, 7);
    assert !LexLess(ca[8..], cb[8..]);
  }

  /** `operator<` is irreflexive. */
  lemma LessIrreflexive(a: PackedVertex)
    ensures !Less(a, a)
  {
  }

  /** `operator<` is asymmetric. */
  lemma LessAsymmetric(a: PackedVertex, b: PackedVertex)
    ensures Less(a, b) ==> !Less(b, a)
  {
  }

  /** The comparator holds exactly when the first component that is not
      within `Margin` is smaller in `a`. */
  lemma LessIffFirstDifferenceSmaller(a: PackedVertex, b: PackedVertex)
    ensures Less(a, b) <==>
      exists k: nat :: FirstDifference(Components(a), Components(b), k) && Components(a)[k] < Components(b)[k]
  {
    LessIsLexLess(a, b);
    LexLessFirstDifference(Components(a), Components(b));
  }

  /** Two keys are equivalent for the map exactly when all eight components
      are pairwise within `Margin`. */
  lemma EquivalentIffAllClose(a: PackedVertex, b: PackedVertex)
    ensures Equivalent(a, b) <==> CloseBefore(Components(a), Components(b), 8)
  {
    var ca, cb := Components(a), Components(b);
    LessIsLexLess(a, b);
    LessIsLexLess(b, a);
    LexLessFirstDifference(ca, cb);
    LexLessFirstDifference(cb, ca);
    forall k: nat | FirstDifference(ca, cb, k)
      ensures FirstDifference(cb, ca, k)
    {
      forall j | 0 <= j <= k { IsEqualSymmetric(ca[j], cb[j], Margin); }
    }
    if !CloseBefore(ca, cb, 8) {
      var k: nat :| FirstDifference(ca, cb, k);
      assert FirstDifference(cb, ca, k);
      assert ca[k] != cb[k];
    }
  }

  /** Equivalence is not transitive: `a` is close to `b` and `b` to `c`,
      yet `a` and `c` are distinguished. */
  lemma EquivalenceNotTransitive()
    ensures exists a, b, c :: Equivalent(a, b) && Equivalent(b, c) && !Equivalent(a, c)
  {
    var uv, n := Vec2(0.0, 0.0), Vec3(0.0, 0.0, 1.0);
    var a := PackedVertex(Vec3(0.0, 0.0, 0.0), uv, n);
    var b := PackedVertex(Vec3(0.000006, 0.0, 0.0), uv, n);
    var c := PackedVertex(Vec3(0.000012, 0.0, 0.0), uv, n);
    assert Equivalent(a, b) && Equivalent(b, c);
    assert Less(a, c);
  }
}

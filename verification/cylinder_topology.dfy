/**
 What the cylinder's buffers promise their consumers: how many vertices and
 indices there are, where each region starts, that every index names a vertex of
 the same region as its triangle's other corners, and how the caps and the side
 wall are wound.
 */
module CylinderTopology {
  import opened CylinderMesh

  datatype Region = TopCap | BottomCap | SideWall

  /** The region vertex k belongs to, by its position in the buffer. */
  function RegionOf(s: int, k: int): Region
  {
    if k < LayoutOf(s).bottomCentre then TopCap
    else if k < LayoutOf(s).wall then BottomCap
    else SideWall
  }

  predicate InRange(t: Triangle, lo: int, hi: int)
  {
    lo <= t.a < hi && lo <= t.b < hi && lo <= t.c < hi
  }

  predicate SameRegion(s: int, t: Triangle)
  {
    RegionOf(s, t.a) == RegionOf(s, t.b) == RegionOf(s, t.c)
  }

  predicate Distinct(t: Triangle)
  {
    t.a != t.b && t.b != t.c && t.a != t.c
  }

  /** The same triangle with the opposite winding. */
  function Reversed(t: Triangle): Triangle
  {
    Triangle(t.a, t.c, t.b)
  }

  function Shifted(t: Triangle, d: int): Triangle
  {
    Triangle(t.a + d, t.b + d, t.c + d)
  }

  /** The vertex count is 4 * segments + 4 (two when the loops do not run at all). */
  lemma VertexCountFormula(s: int)
    ensures |Vertices(s)| == VertexCount(s)
    ensures |Flatten(Vertices(s))| == FloatsPerVertex * VertexCount(s)
    ensures s >= 0 ==> VertexCount(s) == 4 * s + 4
    ensures s < 0 ==> VertexCount(s) == 2
  {
  }

  /** The index count is 12 * segments: three per cap triangle, six per side quad. */
  lemma IndexCountFormula(s: int)
    ensures |Triangles(s)| == 4 * RimCount(s)
    ensures |Indices(Triangles(s))| == 12 * RimCount(s)
    ensures s >= 0 ==> |Indices(Triangles(s))| == 12 * s
  {
  }

  /** Vertex k of a float buffer is the k-th vertex pushed: the source's `V.size() / 8` addressing. */
  lemma {:induction false} DecodeFlatten(vs: seq<Vertex>, k: nat)
    requires k < |vs|
    ensures FloatsPerVertex * k + FloatsPerVertex <= |Flatten(vs)|
    ensures Decode(Flatten(vs), k) == vs[k]
    decreases |vs|
  {
    var init := vs[..|vs| - 1];
    assert Flatten(vs) == Flatten(init) + Encode(vs[|vs| - 1]);
    if k < |vs| - 1 {
      DecodeFlatten(init, k);
      var o := FloatsPerVertex * k;
      assert Flatten(vs)[o..o + 8] == Flatten(init)[o..o + 8];
    } else {
      assert Flatten(vs)[FloatsPerVertex * k..] == Encode(vs[k]);
    }
  }

  /** Triangle k of a triangle list is index-buffer entries 3k, 3k + 1 and 3k + 2. */
  lemma {:induction false} IndicesAt(ts: seq<Triangle>, k: nat)
    requires k < |ts|
    ensures Indices(ts)[3 * k] == ts[k].a
    ensures Indices(ts)[3 * k + 1] == ts[k].b
    ensures Indices(ts)[3 * k + 2] == ts[k].c
    decreases |ts|
  {
    var init := ts[..|ts| - 1];
    assert Indices(ts) == Indices(init) + Corners(ts[|ts| - 1]);
    if k < |ts| - 1 {
      IndicesAt(init, k);
    }
  }

  /** Every entry of an index buffer is a corner of one of its triangles. */
  lemma {:induction false} IndicesBounded(ts: seq<Triangle>, lo: int, hi: int)
    requires forall k :: 0 <= k < |ts| ==> InRange(ts[k], lo, hi)
    ensures forall j :: 0 <= j < |Indices(ts)| ==> lo <= Indices(ts)[j] < hi
    decreases |ts|
  {
    if ts != [] {
      var init := ts[..|ts| - 1];
      assert forall k :: 0 <= k < |init| ==> init[k] == ts[k];
      IndicesBounded(init, lo, hi);
      assert InRange(ts[|ts| - 1], lo, hi);
    }
  }

  /**
   Region starts fixed by the construction order: top centre 0, top rim 1..s,
   bottom centre s + 1, bottom rim s + 2..2s + 1, side wall 2s + 2..4s + 3.
   */
  lemma VertexAt(s: int, k: int)
    requires 0 <= k < VertexCount(s)
    ensures var n, l := RimCount(s), LayoutOf(s);
      && l == Layout(0, 1, n + 1, n + 2, 2 * n + 2)
      && (k == 0 ==> Vertices(s)[k] == CapCentre(true))
      && (1 <= k <= n ==> Vertices(s)[k] == CapRim(true, k - 1, s))
      && (k == n + 1 ==> Vertices(s)[k] == CapCentre(false))
      && (n + 2 <= k < 2 * n + 2 ==> Vertices(s)[k] == CapRim(false, k - (n + 2), s))
      && (2 * n + 2 <= k ==> Vertices(s)[k] == WallVertex((k - l.wall) % 2 == 0, (k - l.wall) / 2, s))
  {
    var n := RimCount(s);
    var top, bottom, wall := Cap(true, s), Cap(false, s), Wall(s);
    assert Vertices(s) == top + bottom + wall;
    if k <= n {
      assert Vertices(s)[k] == top[k];
    } else if k < 2 * n + 2 {
      assert Vertices(s)[k] == bottom[k - (n + 1)];
    } else {
      assert Vertices(s)[k] == wall[k - (2 * n + 2)];
    }
  }

  /**
   The cap normal sign tells the regions apart: +1 on exactly the top cap's
   vertices, -1 on exactly the bottom cap's, 0 on the side wall.
   */
  lemma CapNormals(s: int, k: int)
    requires 0 <= k < VertexCount(s)
    ensures Vertices(s)[k].nz == Lit(1.0) <==> RegionOf(s, k) == TopCap
    ensures Vertices(s)[k].nz == Lit(-1.0) <==> RegionOf(s, k) == BottomCap
    ensures Vertices(s)[k].nz == Lit(0.0) <==> RegionOf(s, k) == SideWall
    ensures RegionOf(s, k) == TopCap ==> Vertices(s)[k].z == Lit(HalfZ)
    ensures RegionOf(s, k) == BottomCap ==> Vertices(s)[k].z == Lit(-HalfZ)
  {
    VertexAt(s, k);
  }

  /**
   Side column i (0 <= i <= s) holds its top-row vertex (v = 1) at wall + 2i and its
   bottom-row vertex (v = 0) at wall + 2i + 1, both with u = i / s.
   */
  lemma WallColumn(s: int, i: int)
    requires 0 <= i < ColumnCount(s)
    ensures var w := LayoutOf(s).wall;
      && w + 2 * i + 1 < VertexCount(s)
      && Vertices(s)[w + 2 * i] == WallVertex(true, i, s)
      && Vertices(s)[w + 2 * i + 1] == WallVertex(false, i, s)
      && Vertices(s)[w + 2 * i].v == Lit(1.0) && Vertices(s)[w + 2 * i + 1].v == Lit(0.0)
      && Vertices(s)[w + 2 * i].u == Vertices(s)[w + 2 * i + 1].u == Ratio(i, s)
  {
    var w := LayoutOf(s).wall;
    VertexAt(s, w + 2 * i);
    VertexAt(s, w + 2 * i + 1);
    assert (2 * i) % 2 == 0 && (2 * i) / 2 == i;
    assert (2 * i + 1) % 2 == 1 && (2 * i + 1) / 2 == i;
    assert w + 2 * i + 1 - w == 2 * i + 1;
  }

  /**
   The seam is duplicated: column 0 has u = 0 and column s has u = 1, and every
   column's u lies in [0, 1]. With no segments the only column divides 0 by 0.
   */
  lemma WallTexture(s: int, i: int)
    requires 0 <= i < ColumnCount(s)
    ensures s > 0 ==> RatioValue(Ratio(i, s)).Some?
    ensures s > 0 ==> 0.0 <= RatioValue(Ratio(i, s)).value <= 1.0
    ensures s > 0 && i == 0 ==> RatioValue(Ratio(i, s)) == Some(0.0)
    ensures s > 0 && i == s ==> RatioValue(Ratio(i, s)) == Some(1.0)
    ensures s == 0 ==> RatioValue(Ratio(i, s)) == None
  {
    if s > 0 {
      UnitFraction(i as real, s as real);
      assert (s as real) / (s as real) == 1.0;
      assert 0.0 / (s as real) == 0.0;
    }
  }

  lemma UnitFraction(a: real, b: real)
    requires 0.0 <= a <= b && b > 0.0
    ensures 0.0 <= a / b <= 1.0
  {
    assert a / b * b == a;
  }

  /** The next rim vertex after i, wrapping to 0 after the last. */
  lemma WrapNext(i: int, s: int)
    requires 0 <= i < s
    ensures (i + 1) % s == if i + 1 < s then i + 1 else 0
  {
  }

  /** The corner numbers of cap triangle i. */
  lemma FanCorners(s: int, i: int)
    requires 0 <= i < RimCount(s)
    ensures TopFan(s)[i] == Triangle(0, 1 + i, 1 + (i + 1) % s)
    ensures BottomFan(s)[i] == Triangle(s + 1, s + 2 + (i + 1) % s, s + 2 + i)
    ensures 0 <= (i + 1) % s < s
    ensures s >= 2 ==> (i + 1) % s != i
  {
    WrapNext(i, s);
  }

  /**
   Top-cap triangle i is (centre, rim i, rim (i + 1) mod s). Bottom-cap triangle i
   is the same fan moved to the bottom cap with its two rim corners swapped.
   */
  lemma CapWinding(s: int, i: int)
    requires 0 <= i < RimCount(s)
    ensures TopFan(s)[i] == Triangle(0, 1 + i, 1 + (i + 1) % s)
    ensures BottomFan(s)[i] == Reversed(Shifted(TopFan(s)[i], s + 1))
  {
    FanCorners(s, i);
  }

  /** Top-cap triangle i joins the top centre to rim vertices i and (i + 1) mod s. */
  lemma TopFanVertices(s: int, i: int)
    requires 0 <= i < RimCount(s)
    ensures Vertices(s)[TopFan(s)[i].a] == CapCentre(true)
    ensures Vertices(s)[TopFan(s)[i].b] == CapRim(true, i, s)
    ensures Vertices(s)[TopFan(s)[i].c] == CapRim(true, (i + 1) % s, s)
  {
    FanCorners(s, i);
    var t := TopFan(s)[i];
    VertexAt(s, t.a);
    VertexAt(s, t.b);
    VertexAt(s, t.c);
  }

  /** Bottom-cap triangle i joins the bottom centre to rim vertices (i + 1) mod s and i. */
  lemma BottomFanVertices(s: int, i: int)
    requires 0 <= i < RimCount(s)
    ensures Vertices(s)[BottomFan(s)[i].a] == CapCentre(false)
    ensures Vertices(s)[BottomFan(s)[i].b] == CapRim(false, (i + 1) % s, s)
    ensures Vertices(s)[BottomFan(s)[i].c] == CapRim(false, i, s)
  {
    FanCorners(s, i);
    var b := BottomFan(s)[i];
    VertexAt(s, b.a);
    VertexAt(s, b.b);
    VertexAt(s, b.c);
  }

  /**
   Side quad i emits (t0, b0, t1) then (t1, b0, b1), where t and b are the top-row
   and bottom-row vertices of columns i and i + 1.
   */
  lemma QuadWinding(s: int, i: int)
    requires 0 <= i < RimCount(s)
    ensures var w := LayoutOf(s).wall;
      && WallStrip(s)[2 * i] == Triangle(w + 2 * i, w + 2 * i + 1, w + 2 * i + 2)
      && WallStrip(s)[2 * i + 1] == Triangle(w + 2 * i + 2, w + 2 * i + 1, w + 2 * i + 3)
    ensures var first := WallStrip(s)[2 * i];
      && Vertices(s)[first.a] == WallVertex(true, i, s)
      && Vertices(s)[first.b] == WallVertex(false, i, s)
      && Vertices(s)[first.c] == WallVertex(true, i + 1, s)
    ensures var second := WallStrip(s)[2 * i + 1];
      && Vertices(s)[second.a] == WallVertex(true, i + 1, s)
      && Vertices(s)[second.b] == WallVertex(false, i, s)
      && Vertices(s)[second.c] == WallVertex(false, i + 1, s)
  {
    StripAt(s, i);
    WallColumn(s, i);
    WallColumn(s, i + 1);
  }

  /** A top-cap triangle lies in the top cap. */
  lemma TopFanTriangle(s: int, i: int)
    requires 0 <= i < RimCount(s)
    ensures InRange(TopFan(s)[i], 0, VertexCount(s)) && SameRegion(s, TopFan(s)[i])
    ensures RegionOf(s, TopFan(s)[i].a) == TopCap
    ensures s >= 2 ==> Distinct(TopFan(s)[i])
  {
    FanCorners(s, i);
  }

  /** A bottom-cap triangle lies in the bottom cap. */
  lemma BottomFanTriangle(s: int, i: int)
    requires 0 <= i < RimCount(s)
    ensures InRange(BottomFan(s)[i], 0, VertexCount(s)) && SameRegion(s, BottomFan(s)[i])
    ensures RegionOf(s, BottomFan(s)[i].a) == BottomCap
    ensures s >= 2 ==> Distinct(BottomFan(s)[i])
  {
    FanCorners(s, i);
  }

  /** A side triangle lies in the side wall. */
  lemma StripTriangle(s: int, j: int)
    requires 0 <= j < 2 * RimCount(s)
    ensures InRange(WallStrip(s)[j], 0, VertexCount(s)) && SameRegion(s, WallStrip(s)[j])
    ensures RegionOf(s, WallStrip(s)[j].a) == SideWall
    ensures Distinct(WallStrip(s)[j])
  {
    var i := j / 2;
    assert j == 2 * i || j == 2 * i + 1;
    StripAt(s, i);
  }

  /** Triangle k of the index list, by region: its corners lie in one region and name real vertices. */
  lemma TriangleAt(s: int, k: int)
    requires 0 <= k < |Triangles(s)|
    ensures InRange(Triangles(s)[k], 0, VertexCount(s))
    ensures SameRegion(s, Triangles(s)[k])
    ensures RegionOf(s, Triangles(s)[k].a)
         == if k < RimCount(s) then TopCap else if k < 2 * RimCount(s) then BottomCap else SideWall
    ensures s >= 2 ==> Distinct(Triangles(s)[k])
  {
    var n := RimCount(s);
    if k < n {
      assert Triangles(s)[k] == TopFan(s)[k];
      TopFanTriangle(s, k);
    } else if k < 2 * n {
      assert Triangles(s)[k] == BottomFan(s)[k - n];
      BottomFanTriangle(s, k - n);
    } else {
      assert Triangles(s)[k] == WallStrip(s)[k - 2 * n];
      StripTriangle(s, k - 2 * n);
    }
  }

  /** Every triangle keeps to one region, names existing vertices, and is not degenerate once s >= 2. */
  lemma TrianglesWellFormed(s: int)
    ensures forall k :: 0 <= k < |Triangles(s)| ==> InRange(Triangles(s)[k], 0, VertexCount(s))
    ensures forall k :: 0 <= k < |Triangles(s)| ==> SameRegion(s, Triangles(s)[k])
    ensures s >= 2 ==> forall k :: 0 <= k < |Triangles(s)| ==> Distinct(Triangles(s)[k])
  {
    forall k | 0 <= k < |Triangles(s)|
      ensures InRange(Triangles(s)[k], 0, VertexCount(s)) && SameRegion(s, Triangles(s)[k])
      ensures s >= 2 ==> Distinct(Triangles(s)[k])
    {
      TriangleAt(s, k);
    }
  }

  /** Every emitted index is below the vertex count. */
  lemma IndicesInRange(s: int)
    ensures forall j :: 0 <= j < |Indices(Triangles(s))| ==> 0 <= Indices(Triangles(s))[j] < VertexCount(s)
  {
    TrianglesWellFormed(s);
    IndicesBounded(Triangles(s), 0, VertexCount(s));
  }

  /** With a single segment the cap fans collapse: rim i + 1 wraps back onto rim i. */
  lemma SingleSegmentDegenerate()
    ensures Triangles(1)[0] == Triangle(0, 1, 1)
    ensures !Distinct(Triangles(1)[0])
  {
    assert Triangles(1)[0] == TopFan(1)[0];
  }

  /** The hub mesh as the program builds it: 64 segments, 260 vertices, 768 indices. */
  method BuildHubMesh() returns (m: Buffers)
    ensures |m.floats| == FloatsPerVertex * 260
    ensures m.indexCount == 768
    ensures forall j :: 0 <= j < |m.indices| ==> 0 <= m.indices[j] < 260
  {
    var layout;
    m, layout := CreateCylinderMesh(64);
    VertexCountFormula(64);
    IndexCountFormula(64);
    IndicesInRange(64);
  }
}

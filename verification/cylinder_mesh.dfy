/**
 The vertex and index buffers that CreateCylinderMesh builds for the gear hub:
 a unit cylinder on the Z axis with a top cap, a bottom cap and a side wall.

 Every float the builder pushes is kept as an `Attr`. Constants are exact reals;
 values computed with float trigonometry stay symbolic (`Wave`, `TexWave`), so
 the model speaks about which vertex sits where, never about its coordinates.
 */
module CylinderMesh {

  /** Floats pushed per vertex: position (3), normal (3), texture coordinate (2). */
  const FloatsPerVertex: nat := 8

  /** Half the height of the cylinder: caps sit at z = +HalfZ and z = -HalfZ. */
  const HalfZ: real := 0.5

  datatype Trig = Cos | Sin

  /** One float of the vertex buffer. */
  datatype Attr =
    | Lit(value: real)                         // an exact constant
    | Wave(fn: Trig, step: int, segs: int)     // fn((float)step / segs * 2 * PI)
    | TexWave(fn: Trig, step: int, segs: int)  // Wave(fn, step, segs) * 0.5 + 0.5
    | Ratio(num: int, den: int)                // (float)num / den

  /**
   The exact value of a ratio attribute; None where the float division is by zero,
   which yields NaN for 0/0 and an infinity otherwise.
   */
  function RatioValue(a: Attr): (r: Option<real>)
    requires a.Ratio?
    ensures r.Some? <==> a.den != 0
    ensures r.Some? ==> r.value * (a.den as real) == a.num as real
  {
    if a.den == 0 then None else Some(a.num as real / a.den as real)
  }

  datatype Option<T> = None | Some(value: T)

  /** The eight floats of one vertex, in push order. */
  datatype Vertex = Vertex(x: Attr, y: Attr, z: Attr, nx: Attr, ny: Attr, nz: Attr, u: Attr, v: Attr)

  /** The eight floats one call of the builder's `push` appends. */
  function Encode(v: Vertex): (fs: seq<Attr>)
    ensures |fs| == FloatsPerVertex
    ensures Decode(fs, 0) == v
  {
    [v.x, v.y, v.z, v.nx, v.ny, v.nz, v.u, v.v]
  }

  /** Vertex k of a float buffer: the eight floats starting at 8 * k. */
  function Decode(fs: seq<Attr>, k: nat): Vertex
    requires FloatsPerVertex * k + FloatsPerVertex <= |fs|
  {
    var o := FloatsPerVertex * k;
    Vertex(fs[o], fs[o + 1], fs[o + 2], fs[o + 3], fs[o + 4], fs[o + 5], fs[o + 6], fs[o + 7])
  }

  /** The float buffer holding `vs`, pushed in order. */
  function Flatten(vs: seq<Vertex>): (fs: seq<Attr>)
    ensures |fs| == FloatsPerVertex * |vs|
  {
    if vs == [] then [] else Flatten(vs[..|vs| - 1]) + Encode(vs[|vs| - 1])
  }

  /** +1 for the top of the cylinder, -1 for the bottom. */
  function Side(top: bool): real
  {
    if top then 1.0 else -1.0
  }

  /** The centre of a cap: on the axis, normal along +-Z, texture centre. */
  function CapCentre(top: bool): Vertex
  {
    Vertex(Lit(0.0), Lit(0.0), Lit(Side(top) * HalfZ), Lit(0.0), Lit(0.0), Lit(Side(top)), Lit(0.5), Lit(0.5))
  }

  /** Rim vertex i of a cap: on the unit circle, normal along +-Z. */
  function CapRim(top: bool, i: int, s: int): Vertex
  {
    Vertex(Wave(Cos, i, s), Wave(Sin, i, s), Lit(Side(top) * HalfZ),
           Lit(0.0), Lit(0.0), Lit(Side(top)),
           TexWave(Cos, i, s), TexWave(Sin, i, s))
  }

  /** The top-row or bottom-row vertex of side column i: radial normal, u = i / s. */
  function WallVertex(top: bool, i: int, s: int): Vertex
  {
    Vertex(Wave(Cos, i, s), Wave(Sin, i, s), Lit(Side(top) * HalfZ),
           Wave(Cos, i, s), Wave(Sin, i, s), Lit(0.0),
           Ratio(i, s), Lit(if top then 1.0 else 0.0))
  }

  /** Iterations of a `for (i = 0; i < segments; i++)` loop. */
  function RimCount(s: int): nat
  {
    if s > 0 then s else 0
  }

  /** Iterations of the side loop `for (i = 0; i <= segments; i++)`. */
  function ColumnCount(s: int): nat
  {
    if s >= 0 then s + 1 else 0
  }

  /** A cap's rim vertices in angle order. */
  function Rim(top: bool, s: int): seq<Vertex>
  {
    seq(RimCount(s), i => CapRim(top, i, s))
  }

  /** A cap: its centre, then its rim. */
  function Cap(top: bool, s: int): seq<Vertex>
  {
    [CapCentre(top)] + Rim(top, s)
  }

  /** The side wall: per column, the top-row vertex followed by the bottom-row vertex. */
  function Wall(s: int): seq<Vertex>
  {
    seq(2 * ColumnCount(s), k => WallVertex(k % 2 == 0, k / 2, s))
  }

  /** All vertices in the order the builder pushes them. */
  function Vertices(s: int): seq<Vertex>
  {
    Cap(true, s) + Cap(false, s) + Wall(s)
  }

  /** Where each region begins in the vertex buffer. */
  datatype Layout = Layout(topCentre: nat, topRim: nat, bottomCentre: nat, bottomRim: nat, wall: nat)

  function LayoutOf(s: int): Layout
  {
    var n := RimCount(s);
    Layout(0, 1, n + 1, n + 2, 2 * n + 2)
  }

  function VertexCount(s: int): nat
  {
    LayoutOf(s).wall + 2 * ColumnCount(s)
  }

  /** A triangle of the index buffer, corners in winding order. */
  datatype Triangle = Triangle(a: int, b: int, c: int)

  /**
   The fan of one cap around `centre`, with rim vertices from `rim` on. The top cap
   runs centre, rim i, rim i + 1 (wrapping at s); the bottom cap swaps the two rim
   corners so that its faces point the other way.
   */
  function Fan(centre: int, rim: int, s: int, top: bool): seq<Triangle>
  {
    seq(RimCount(s), i requires 0 <= i < RimCount(s) =>
      if top then Triangle(centre, rim + i, rim + (i + 1) % s)
      else Triangle(centre, rim + (i + 1) % s, rim + i))
  }

  function TopFan(s: int): seq<Triangle>
  {
    Fan(LayoutOf(s).topCentre, LayoutOf(s).topRim, s, true)
  }

  function BottomFan(s: int): seq<Triangle>
  {
    Fan(LayoutOf(s).bottomCentre, LayoutOf(s).bottomRim, s, false)
  }

  /** Triangle `second` of side quad i, whose columns start at `start + 2 * i`. */
  function QuadTriangle(start: int, i: int, second: bool): Triangle
  {
    var t0 := start + i * 2;
    var b0 := t0 + 1;
    var t1 := start + (i + 1) * 2;
    var b1 := t1 + 1;
    if second then Triangle(t1, b0, b1) else Triangle(t0, b0, t1)
  }

  /** Two triangles per side quad, quad by quad. */
  function WallStrip(s: int): seq<Triangle>
  {
    seq(2 * RimCount(s), k => QuadTriangle(LayoutOf(s).wall, k / 2, k % 2 == 1))
  }

  /** All triangles in the order the builder emits them. */
  function Triangles(s: int): seq<Triangle>
  {
    TopFan(s) + BottomFan(s) + WallStrip(s)
  }

  function Corners(t: Triangle): seq<int>
  {
    [t.a, t.b, t.c]
  }

  /** The index buffer holding `ts`, three indices per triangle. */
  function Indices(ts: seq<Triangle>): (ix: seq<int>)
    ensures |ix| == 3 * |ts|
  {
    if ts == [] then [] else Indices(ts[..|ts| - 1]) + Corners(ts[|ts| - 1])
  }

  /** What the builder hands to the GPU: the two buffers and the index count it records. */
  datatype Buffers = Buffers(floats: seq<Attr>, indices: seq<int>, indexCount: int)

  lemma FlattenSnoc(vs: seq<Vertex>, v: Vertex)
    ensures Flatten(vs + [v]) == Flatten(vs) + Encode(v)
  {
    assert (vs + [v])[..|vs|] == vs;
  }

  /** Pushing two vertex lists one after the other fills the buffer with their concatenation. */
  lemma {:induction false} FlattenAppend(xs: seq<Vertex>, ys: seq<Vertex>)
    ensures Flatten(xs + ys) == Flatten(xs) + Flatten(ys)
    decreases |ys|
  {
    if ys == [] {
      assert xs + ys == xs;
    } else {
      var init := ys[..|ys| - 1];
      var last := ys[|ys| - 1];
      assert ys == init + [last];
      assert xs + ys == (xs + init) + [last];
      FlattenAppend(xs, init);
      FlattenSnoc(xs + init, last);
      FlattenSnoc(init, last);
    }
  }

  lemma IndicesSnoc(ts: seq<Triangle>, t: Triangle)
    ensures Indices(ts + [t]) == Indices(ts) + Corners(t)
  {
    assert (ts + [t])[..|ts|] == ts;
  }

  /** Emitting two triangle lists one after the other fills the buffer with their concatenation. */
  lemma {:induction false} IndicesAppend(xs: seq<Triangle>, ys: seq<Triangle>)
    ensures Indices(xs + ys) == Indices(xs) + Indices(ys)
    decreases |ys|
  {
    if ys == [] {
      assert xs + ys == xs;
    } else {
      var init := ys[..|ys| - 1];
      var last := ys[|ys| - 1];
      assert ys == init + [last];
      assert xs + ys == (xs + init) + [last];
      IndicesAppend(xs, init);
      IndicesSnoc(xs + init, last);
      IndicesSnoc(init, last);
    }
  }

  /** A cap's floats: the centre's eight, then the rim's. */
  lemma FlattenCap(top: bool, s: int)
    ensures Flatten(Cap(top, s)) == Encode(CapCentre(top)) + Flatten(Rim(top, s))
  {
    FlattenAppend([CapCentre(top)], Rim(top, s));
    FlattenSnoc([], CapCentre(top));
    assert [] + [CapCentre(top)] == [CapCentre(top)];
  }

  /** Appending one more vertex's floats to a buffer that holds `V` then `pre`. */
  lemma PushStep(V: seq<Attr>, pre: seq<Vertex>, v: Vertex)
    ensures V + Flatten(pre) + Encode(v) == V + Flatten(pre + [v])
  {
    FlattenSnoc(pre, v);
  }

  /** Appending one more triangle's indices to a buffer that holds `I` then `pre`. */
  lemma EmitStep(I: seq<int>, pre: seq<Triangle>, t: Triangle)
    ensures I + Indices(pre) + Corners(t) == I + Indices(pre + [t])
  {
    IndicesSnoc(pre, t);
  }

  /** The rim loop of one cap: a vertex per segment on the unit circle. */
  method PushRim(V: seq<Attr>, top: bool, segments: int) returns (V': seq<Attr>)
    ensures V' == V + Flatten(Rim(top, segments))
  {
    ghost var rim := Rim(top, segments);
    var z := if top then HalfZ else -HalfZ;
    var nz := if top then 1.0 else -1.0;
    V' := V;
    var i := 0;
    while i < segments
      invariant 0 <= i <= RimCount(segments) == |rim|
      invariant V' == V + Flatten(rim[..i])
    {
      V' := V' + [Wave(Cos, i, segments), Wave(Sin, i, segments), Lit(z), Lit(0.0), Lit(0.0), Lit(nz),
                  TexWave(Cos, i, segments), TexWave(Sin, i, segments)];
      assert rim[i] == CapRim(top, i, segments);
      assert rim[..i + 1] == rim[..i] + [rim[i]];
      PushStep(V, rim[..i], rim[i]);
      i := i + 1;
    }
    assert rim[..i] == rim;
  }

  /** One cap's index loop: a triangle per rim vertex, wrapping with `% segments`. */
  method EmitFan(I: seq<int>, centre: int, ringStart: int, top: bool, segments: int) returns (I': seq<int>)
    ensures I' == I + Indices(Fan(centre, ringStart, segments, top))
  {
    ghost var fan := Fan(centre, ringStart, segments, top);
    I' := I;
    var i := 0;
    while i < segments
      invariant 0 <= i <= RimCount(segments)
      invariant I' == I + Indices(fan[..i])
    {
      if top {
        I' := I' + [centre, ringStart + i, ringStart + ((i + 1) % segments)];
      } else {
        I' := I' + [centre, ringStart + ((i + 1) % segments), ringStart + i];
      }
      assert fan[..i + 1] == fan[..i] + [fan[i]];
      EmitStep(I, fan[..i], fan[i]);
      i := i + 1;
    }
    assert fan[..i] == fan;
  }

  /** Column i adds its top-row and then its bottom-row vertex to the wall. */
  lemma WallPrefix(s: int, i: int)
    requires 0 <= i < ColumnCount(s)
    ensures Wall(s)[..2 * i + 2] == Wall(s)[..2 * i] + [WallVertex(true, i, s), WallVertex(false, i, s)]
  {
    assert (2 * i) / 2 == i && (2 * i + 1) / 2 == i;
    assert (2 * i) % 2 == 0 && (2 * i + 1) % 2 == 1;
  }

  lemma PushPair(V: seq<Attr>, pre: seq<Vertex>, v: Vertex, w: Vertex)
    ensures V + Flatten(pre) + Encode(v) + Encode(w) == V + Flatten(pre + [v, w])
  {
    FlattenSnoc(pre, v);
    FlattenSnoc(pre + [v], w);
    assert pre + [v] + [w] == pre + [v, w];
  }

  /** The side loop: a top-row and a bottom-row vertex for each of the segments + 1 columns. */
  method PushWall(V: seq<Attr>, segments: int) returns (V': seq<Attr>)
    ensures V' == V + Flatten(Wall(segments))
  {
    ghost var wall := Wall(segments);
    V' := V;
    var i := 0;
    while i <= segments
      invariant 0 <= i <= ColumnCount(segments)
      invariant V' == V + Flatten(wall[..2 * i])
    {
      ghost var before := V';
      V' := V' + [Wave(Cos, i, segments), Wave(Sin, i, segments), Lit(HalfZ),
                  Wave(Cos, i, segments), Wave(Sin, i, segments), Lit(0.0), Ratio(i, segments), Lit(1.0)];
      V' := V' + [Wave(Cos, i, segments), Wave(Sin, i, segments), Lit(-HalfZ),
                  Wave(Cos, i, segments), Wave(Sin, i, segments), Lit(0.0), Ratio(i, segments), Lit(0.0)];
      assert V' == before + Encode(WallVertex(true, i, segments)) + Encode(WallVertex(false, i, segments));
      WallPrefix(segments, i);
      PushPair(V, wall[..2 * i], WallVertex(true, i, segments), WallVertex(false, i, segments));
      i := i + 1;
    }
    assert wall[..2 * i] == wall;
  }

  /** Quad i of the side strip is triangles 2i and 2i + 1. */
  lemma StripAt(s: int, i: int)
    requires 0 <= i < RimCount(s)
    ensures WallStrip(s)[2 * i] == QuadTriangle(LayoutOf(s).wall, i, false)
    ensures WallStrip(s)[2 * i + 1] == QuadTriangle(LayoutOf(s).wall, i, true)
  {
    assert (2 * i) / 2 == i && (2 * i + 1) / 2 == i;
    assert (2 * i) % 2 == 0 && (2 * i + 1) % 2 == 1;
  }

  lemma StripPrefix(s: int, i: int)
    requires 0 <= i < RimCount(s)
    ensures WallStrip(s)[..2 * i + 2]
         == WallStrip(s)[..2 * i] + [QuadTriangle(LayoutOf(s).wall, i, false), QuadTriangle(LayoutOf(s).wall, i, true)]
  {
    StripAt(s, i);
  }

  lemma EmitPair(I: seq<int>, pre: seq<Triangle>, t: Triangle, u: Triangle)
    ensures I + Indices(pre) + Corners(t) + Corners(u) == I + Indices(pre + [t, u])
  {
    IndicesSnoc(pre, t);
    IndicesSnoc(pre + [t], u);
    assert pre + [t] + [u] == pre + [t, u];
  }

  /** The side index loop: two triangles per quad between columns i and i + 1. */
  method EmitStrip(I: seq<int>, sideStart: int, segments: int) returns (I': seq<int>)
    requires sideStart == LayoutOf(segments).wall
    ensures I' == I + Indices(WallStrip(segments))
  {
    ghost var strip := WallStrip(segments);
    I' := I;
    var i := 0;
    while i < segments
      invariant 0 <= i <= RimCount(segments)
      invariant I' == I + Indices(strip[..2 * i])
    {
      var t0 := sideStart + i * 2;
      var b0 := t0 + 1;
      var t1 := sideStart + (i + 1) * 2;
      var b1 := t1 + 1;
      ghost var before := I';
      I' := I' + [t0, b0, t1];
      I' := I' + [t1, b0, b1];
      ghost var first, second := QuadTriangle(sideStart, i, false), QuadTriangle(sideStart, i, true);
      assert I' == before + Corners(first) + Corners(second);
      StripPrefix(segments, i);
      EmitPair(I, strip[..2 * i], first, second);
      i := i + 1;
    }
    assert strip[..2 * i] == strip;
  }

  /**
   One cap, as each of the two cap blocks of the builder does it: note the centre's
   index, push the centre, note the rim's first index, push the rim, emit the fan.
   */
  method BuildCap(V: seq<Attr>, I: seq<int>, top: bool, segments: int)
    returns (V': seq<Attr>, I': seq<int>, centre: int, ringStart: int)
    requires |V| % FloatsPerVertex == 0
    ensures centre == |V| / FloatsPerVertex && ringStart == centre + 1
    ensures |V'| == |V| + FloatsPerVertex * (RimCount(segments) + 1)
    ensures V' == V + Flatten(Cap(top, segments))
    ensures I' == I + Indices(Fan(centre, ringStart, segments, top))
  {
    centre := |V| / FloatsPerVertex;
    var z := if top then HalfZ else -HalfZ;
    var nz := if top then 1.0 else -1.0;
    V' := V + [Lit(0.0), Lit(0.0), Lit(z), Lit(0.0), Lit(0.0), Lit(nz), Lit(0.5), Lit(0.5)];
    assert V' == V + Encode(CapCentre(top));
    ringStart := |V'| / FloatsPerVertex;
    V' := PushRim(V', top, segments);
    I' := EmitFan(I, centre, ringStart, top, segments);
    FlattenCap(top, segments);
    assert V' == V + (Encode(CapCentre(top)) + Flatten(Rim(top, segments)));
  }

  /** The index buffer filled cap by cap and then the side holds the indices of all triangles. */
  lemma AssembleIndices(s: int)
    ensures [] + Indices(TopFan(s)) + Indices(BottomFan(s)) + Indices(WallStrip(s)) == Indices(Triangles(s))
  {
    var topFan, bottomFan, strip := TopFan(s), BottomFan(s), WallStrip(s);
    assert [] + Indices(topFan) == Indices(topFan);
    IndicesAppend(topFan, bottomFan);
    IndicesAppend(topFan + bottomFan, strip);
  }

  /** The float buffer filled cap by cap and then the side holds the floats of all vertices. */
  lemma AssembleFloats(s: int)
    ensures [] + Flatten(Cap(true, s)) + Flatten(Cap(false, s)) + Flatten(Wall(s)) == Flatten(Vertices(s))
  {
    var top, bottom, wall := Cap(true, s), Cap(false, s), Wall(s);
    assert [] + Flatten(top) == Flatten(top);
    FlattenAppend(top, bottom);
    FlattenAppend(top + bottom, wall);
  }

  /**
   The builder, region by region. Each region's start is read off the float buffer's
   length divided by eight, as the source does; the result is the reference layout.
   */
  method CreateCylinderMesh(segments: int) returns (m: Buffers, layout: Layout)
    ensures m.floats == Flatten(Vertices(segments))
    ensures m.indices == Indices(Triangles(segments))
    ensures m.indexCount == |m.indices|
    ensures layout == LayoutOf(segments)
  {
    var V: seq<Attr> := [];
    var I: seq<int> := [];
    var topCenter, topRingStart, bottomCenter, bottomRingStart;
    V, I, topCenter, topRingStart := BuildCap(V, I, true, segments);
    V, I, bottomCenter, bottomRingStart := BuildCap(V, I, false, segments);
    var sideStart := |V| / FloatsPerVertex;
    V := PushWall(V, segments);
    I := EmitStrip(I, sideStart, segments);

    layout := Layout(topCenter, topRingStart, bottomCenter, bottomRingStart, sideStart);
    assert layout == LayoutOf(segments);
    AssembleFloats(segments);
    AssembleIndices(segments);
    m := Buffers(V, I, |I|);
  }
}

/** The vertex patterns that the immediate-mode primitives of MGRDrawNode
    append to its buffers, as pure sequences, with the lemmas that say how
    many vertices each pattern has and where each input point lands. */
module DrawShapes {
  import opened Types

  /** `V2F_C4B_T2F`: position, colour and texture coordinate. The colour is
      kept as the `Color4F` the caller passed (the byte conversion is engine
      code). */
  datatype Vertex = Vertex(pos: Vec2, color: Color4F, tex: Vec2)

  /** A vertex with texture coordinate (0, 0), as lines, triangles and the
      polygon fill use. */
  function Plain(p: Vec2, c: Color4F): Vertex { Vertex(p, c, Zero2) }

  /** A point-buffer vertex: the point size travels in the texture coordinate. */
  function PointVertex(p: Vec2, size: real, c: Color4F): Vertex { Vertex(p, c, Vec2(size, 0.0)) }

  // ---------------------------------------------------------------- points

  /** The vertices `drawPoints` writes for `ps`, one per point, in order. */
  function PointVertices(ps: seq<Vec2>, size: real, c: Color4F): seq<Vertex>
  {
    if ps == [] then [] else PointVertices(ps[..|ps| - 1], size, c) + [PointVertex(ps[|ps| - 1], size, c)]
  }

  lemma {:induction false} PointVerticesInOrder(ps: seq<Vec2>, size: real, c: Color4F)
    ensures |PointVertices(ps, size, c)| == |ps|
    ensures forall i :: 0 <= i < |ps| ==> PointVertices(ps, size, c)[i] == PointVertex(ps[i], size, c)
  {
    if ps != [] {
      var init := ps[..|ps| - 1];
      PointVerticesInOrder(init, size, c);
      forall i | 0 <= i < |ps| - 1 ensures ps[i] == init[i] { }
    }
  }

  // ---------------------------------------------------------------- lines

  /** The two vertices of one GL line segment. */
  function Segment(a: Vec2, b: Vec2, c: Color4F): seq<Vertex> { [Plain(a, c), Plain(b, c)] }

  /** The segments `(poli[i], poli[i + 1])` for `i < k`, in order. */
  function OpenPairs(poli: seq<Vec2>, c: Color4F, k: nat): (r: seq<Vertex>)
    requires k < |poli|
    ensures |r| == 2 * k
  {
    if k == 0 then [] else OpenPairs(poli, c, k - 1) + Segment(poli[k - 1], poli[k], c)
  }

  lemma {:induction false} OpenPairsAt(poli: seq<Vec2>, c: Color4F, k: nat)
    requires k < |poli|
    ensures |OpenPairs(poli, c, k)| == 2 * k
    ensures forall i :: 0 <= i < k ==>
      OpenPairs(poli, c, k)[2 * i] == Plain(poli[i], c) && OpenPairs(poli, c, k)[2 * i + 1] == Plain(poli[i + 1], c)
  {
    if k > 0 { OpenPairsAt(poli, c, k - 1); }
  }

  /** The vertices `drawPoly` writes for a non-empty point list: consecutive
      pairs, and the pair from the last point back to the first if closed. */
  function PolyLines(poli: seq<Vec2>, closed: bool, c: Color4F): seq<Vertex>
    requires |poli| >= 1
  {
    OpenPairs(poli, c, |poli| - 1) + (if closed then Segment(poli[|poli| - 1], poli[0], c) else [])
  }

  lemma PolyLinesShape(poli: seq<Vec2>, closed: bool, c: Color4F)
    requires |poli| >= 1
    ensures |PolyLines(poli, closed, c)| == if closed then 2 * |poli| else 2 * (|poli| - 1)
    ensures forall i :: 0 <= i < |poli| - 1 ==>
      PolyLines(poli, closed, c)[2 * i] == Plain(poli[i], c) && PolyLines(poli, closed, c)[2 * i + 1] == Plain(poli[i + 1], c)
    ensures closed ==>
      PolyLines(poli, closed, c)[2 * |poli| - 2] == Plain(poli[|poli| - 1], c) &&
      PolyLines(poli, closed, c)[2 * |poli| - 1] == Plain(poli[0], c)
  {
    OpenPairsAt(poli, c, |poli| - 1);
  }

  /** The eight line vertices of `drawRect(p1, p2, p3, p4)`: four edges. */
  function QuadOutline(p1: Vec2, p2: Vec2, p3: Vec2, p4: Vec2, c: Color4F): seq<Vertex>
  {
    Segment(p1, p2, c) + Segment(p2, p3, c) + Segment(p3, p4, c) + Segment(p4, p1, c)
  }

  /** The eight line vertices of `drawRect(origin, destination)`. */
  function RectOutline(o: Vec2, d: Vec2, c: Color4F): seq<Vertex>
  {
    Segment(o, Vec2(d.x, o.y), c) + Segment(Vec2(d.x, o.y), d, c)
      + Segment(d, Vec2(o.x, d.y), c) + Segment(Vec2(o.x, d.y), o, c)
  }

  /** Both rectangle outlines are closed chains of four edges: each edge
      starts where the previous one ended and the last ends at the first
      corner. The axis-aligned one is the four-corner one on the corners
      origin, (dest.x, origin.y), dest, (origin.x, dest.y), and each of its
      edges is horizontal or vertical. */
  lemma RectOutlineCloses(o: Vec2, d: Vec2, c: Color4F)
    ensures RectOutline(o, d, c) == QuadOutline(o, Vec2(d.x, o.y), d, Vec2(o.x, d.y), c)
    ensures |RectOutline(o, d, c)| == 8
    ensures forall e :: 1 <= e < 4 ==> RectOutline(o, d, c)[2 * e] == RectOutline(o, d, c)[2 * e - 1]
    ensures RectOutline(o, d, c)[7] == RectOutline(o, d, c)[0]
    ensures forall e :: 0 <= e < 4 ==>
      RectOutline(o, d, c)[2 * e].pos.x == RectOutline(o, d, c)[2 * e + 1].pos.x ||
      RectOutline(o, d, c)[2 * e].pos.y == RectOutline(o, d, c)[2 * e + 1].pos.y
  {
  }

  // ---------------------------------------------------------------- triangles

  /** The three vertices of one filled triangle. */
  function Triangle(a: Vec2, b: Vec2, p: Vec2, c: Color4F): seq<Vertex> { [Plain(a, c), Plain(b, c), Plain(p, c)] }

  /** The six vertices of `drawDot`: the triangles (a, b, c) and (a, c, d) of
      the square around `pos`, with texture coordinates at its (+-1, +-1)
      corners. */
  function DotVertices(pos: Vec2, radius: real, col: Color4F): seq<Vertex>
  {
    var a := Vertex(Vec2(pos.x - radius, pos.y - radius), col, Vec2(-1.0, -1.0));
    var b := Vertex(Vec2(pos.x - radius, pos.y + radius), col, Vec2(-1.0, 1.0));
    var c := Vertex(Vec2(pos.x + radius, pos.y + radius), col, Vec2(1.0, 1.0));
    var d := Vertex(Vec2(pos.x + radius, pos.y - radius), col, Vec2(1.0, -1.0));
    [a, b, c, a, c, d]
  }

  /** Every dot vertex sits at `pos + radius * tex`, its texture coordinate
      is a corner of the unit square (-1..1)^2, the two triangles share the
      diagonal from the (-1, -1) corner to the (1, 1) corner, and the four
      distinct corners all occur. */
  lemma DotIsSquare(pos: Vec2, radius: real, col: Color4F)
    ensures |DotVertices(pos, radius, col)| == 6
    ensures forall k :: 0 <= k < 6 ==>
      var v := DotVertices(pos, radius, col)[k];
      v.color == col &&
      (v.tex.x == 1.0 || v.tex.x == -1.0) && (v.tex.y == 1.0 || v.tex.y == -1.0) &&
      v.pos == Vec2(pos.x + radius * v.tex.x, pos.y + radius * v.tex.y)
    ensures DotVertices(pos, radius, col)[0] == DotVertices(pos, radius, col)[3]
    ensures DotVertices(pos, radius, col)[2] == DotVertices(pos, radius, col)[4]
    ensures DotVertices(pos, radius, col)[0].tex == Vec2(-1.0, -1.0) && DotVertices(pos, radius, col)[2].tex == Vec2(1.0, 1.0)
    ensures DotVertices(pos, radius, col)[1].tex == Vec2(-1.0, 1.0) && DotVertices(pos, radius, col)[5].tex == Vec2(1.0, -1.0)
  {
  }

  /** The fan triangles `(verts[0], verts[i + 1], verts[i + 2])` for `i < k`. */
  function Fan(verts: seq<Vec2>, c: Color4F, k: nat): (r: seq<Vertex>)
    requires k + 2 <= |verts|
    ensures |r| == 3 * k
  {
    if k == 0 then [] else Fan(verts, c, k - 1) + Triangle(verts[0], verts[k], verts[k + 1], c)
  }

  lemma {:induction false} FanAt(verts: seq<Vec2>, c: Color4F, k: nat)
    requires k + 2 <= |verts|
    ensures |Fan(verts, c, k)| == 3 * k
    ensures forall i :: 0 <= i < k ==>
      Fan(verts, c, k)[3 * i] == Plain(verts[0], c) &&
      Fan(verts, c, k)[3 * i + 1] == Plain(verts[i + 1], c) &&
      Fan(verts, c, k)[3 * i + 2] == Plain(verts[i + 2], c)
  {
    if k > 0 { FanAt(verts, c, k - 1); }
  }

  /** The whole fan fill of a polygon: `count - 2` triangles, none for fewer
      than three vertices. */
  function FanFill(verts: seq<Vec2>, c: Color4F): seq<Vertex>
  {
    if |verts| < 2 then [] else Fan(verts, c, |verts| - 2)
  }

  /** The per-vertex miter offset and edge normal of the polygon stroke,
      computed by the host with float normalisation. */
  datatype Extrude = Extrude(offset: Vec2, n: Vec2)

  function Add(p: Vec2, q: Vec2): Vec2 { Vec2(p.x + q.x, p.y + q.y) }
  function Sub(p: Vec2, q: Vec2): Vec2 { Vec2(p.x - q.x, p.y - q.y) }
  function Scale(p: Vec2, s: real): Vec2 { Vec2(p.x * s, p.y * s) }
  function Neg(p: Vec2): Vec2 { Vec2(-p.x, -p.y) }

  /** The two stroke triangles of edge `i`, from vertex `i` to vertex
      `(i + 1) % count`: (inner0, inner1, outer1) and (inner0, outer0, outer1). */
  function EdgeStroke(verts: seq<Vec2>, ext: nat -> Extrude, w: real, c: Color4F, i: nat): seq<Vertex>
    requires i < |verts|
  {
    var j := (i + 1) % |verts|;
    var n0 := ext(i).n;
    var inner0 := Sub(verts[i], Scale(ext(i).offset, w));
    var inner1 := Sub(verts[j], Scale(ext(j).offset, w));
    var outer0 := Add(verts[i], Scale(ext(i).offset, w));
    var outer1 := Add(verts[j], Scale(ext(j).offset, w));
    [Vertex(inner0, c, Neg(n0)), Vertex(inner1, c, Neg(n0)), Vertex(outer1, c, n0),
     Vertex(inner0, c, Neg(n0)), Vertex(outer0, c, n0), Vertex(outer1, c, n0)]
  }

  /** The stroke of edges `0 .. k - 1`. */
  function Stroke(verts: seq<Vec2>, ext: nat -> Extrude, w: real, c: Color4F, k: nat): (r: seq<Vertex>)
    requires k <= |verts|
    ensures |r| == 6 * k
  {
    if k == 0 then [] else Stroke(verts, ext, w, c, k - 1) + EdgeStroke(verts, ext, w, c, k - 1)
  }

  lemma {:induction false} StrokeAt(verts: seq<Vec2>, ext: nat -> Extrude, w: real, c: Color4F, k: nat)
    requires k <= |verts|
    ensures |Stroke(verts, ext, w, c, k)| == 6 * k
    ensures forall i, m :: 0 <= i < k && 0 <= m < 6 ==>
      Stroke(verts, ext, w, c, k)[6 * i + m] == EdgeStroke(verts, ext, w, c, i)[m]
  {
    if k > 0 { StrokeAt(verts, ext, w, c, k - 1); }
  }

  /** Each edge's stroke spans that edge: both of its triangles start at
      the inner point of vertex i and end at the outer point of the next
      vertex, pushed out along the host's miter offsets by the border width,
      and the inner vertices carry the negated edge normal. */
  lemma EdgeStrokeSpansEdge(verts: seq<Vec2>, ext: nat -> Extrude, w: real, c: Color4F, i: nat)
    requires i < |verts|
    ensures var s := EdgeStroke(verts, ext, w, c, i);
      var j := (i + 1) % |verts|;
      |s| == 6 && s[0] == s[3] && s[2] == s[5] &&
      s[0].pos == Sub(verts[i], Scale(ext(i).offset, w)) &&
      s[2].pos == Add(verts[j], Scale(ext(j).offset, w)) &&
      s[4].pos == Add(verts[i], Scale(ext(i).offset, w)) &&
      s[1].pos == Sub(verts[j], Scale(ext(j).offset, w)) &&
      s[0].tex == Neg(s[2].tex) && s[0].tex == s[1].tex && s[4].tex == s[2].tex
  {
  }

  /** Whether `drawPolygon` strokes an outline. */
  predicate Outlined(borderWidth: real, borderColor: Color4F) { borderColor.a > 0.0 && borderWidth > 0.0 }

  /** All vertices `drawPolygon` writes: the fan, then the stroke if any. */
  function PolygonVertices(verts: seq<Vec2>, fill: Color4F, w: real, border: Color4F, ext: nat -> Extrude): seq<Vertex>
  {
    FanFill(verts, fill) + (if Outlined(w, border) then Stroke(verts, ext, w, border, |verts|) else [])
  }

  /** The triangle count of `drawPolygon` as written: the number of
      triangles reserved and counted, `3 * count - 2` with an outline and
      `count - 2` without. */
  function SourcePolygonTriangles(count: int, outline: bool): int
  {
    if outline then 3 * count - 2 else count - 2
  }

  /** The number of triangles reserved and counted, corrected to the
      triangles the fill and stroke loops emit for every vertex count. */
  function PolygonTriangles(count: nat, outline: bool): nat
  {
    (if count >= 2 then count - 2 else 0) + (if outline then 2 * count else 0)
  }

  /** The corrected count is the number of triangles written, and it agrees
      with the source's count whenever the polygon has at least two vertices. */
  lemma PolygonTrianglesCorrect(verts: seq<Vec2>, fill: Color4F, w: real, border: Color4F, ext: nat -> Extrude)
    ensures |PolygonVertices(verts, fill, w, border, ext)| == 3 * PolygonTriangles(|verts|, Outlined(w, border))
    ensures |verts| >= 2 ==> PolygonTriangles(|verts|, Outlined(w, border)) == SourcePolygonTriangles(|verts|, Outlined(w, border))
    ensures !Outlined(w, border) && |verts| >= 2 ==> |PolygonVertices(verts, fill, w, border, ext)| == 3 * (|verts| - 2)
    ensures Outlined(w, border) && |verts| >= 2 ==> |PolygonVertices(verts, fill, w, border, ext)| == 3 * (3 * |verts| - 2)
  {
    if |verts| >= 2 { FanAt(verts, fill, |verts| - 2); }
    StrokeAt(verts, ext, w, border, |verts|);
  }

  /** As written: a one-vertex polygon with an outline reserves and counts
      one triangle (3 vertices) but the stroke loop writes two (6 vertices). */
  lemma OutlinedMonogonOverruns(p: Vec2, fill: Color4F, border: Color4F, ext: nat -> Extrude)
    requires border.a > 0.0
    ensures 3 * SourcePolygonTriangles(1, true) == 3
    ensures |PolygonVertices([p], fill, 1.0, border, ext)| == 6
  {
    StrokeAt([p], ext, 1.0, border, 1);
  }

  /** As written: an empty polygon, or a one-vertex polygon without an
      outline, gets a negative vertex count, so the buffer count would go
      down; the corrected count is zero, since no triangle is written. */
  lemma SmallPolygonCountNegative(count: nat, outline: bool, verts: seq<Vec2>, fill: Color4F, w: real, border: Color4F, ext: nat -> Extrude)
    requires count == |verts| < 2 && outline == Outlined(w, border)
    requires count == 0 || !outline
    ensures 3 * SourcePolygonTriangles(count, outline) < 0
    ensures PolygonTriangles(count, outline) == 0
    ensures PolygonVertices(verts, fill, w, border, ext) == []
  {
    if outline { assert Stroke(verts, ext, w, border, 0) == []; }
  }

  /** The polygon's fill is the fan from vertex 0: triangle i is
      (verts[0], verts[i + 1], verts[i + 2]), followed by the stroke of every
      edge in order. */
  lemma PolygonVerticesLayout(verts: seq<Vec2>, fill: Color4F, w: real, border: Color4F, ext: nat -> Extrude)
    requires |verts| >= 2
    ensures |PolygonVertices(verts, fill, w, border, ext)|
         == 3 * (if Outlined(w, border) then 3 * |verts| - 2 else |verts| - 2)
    ensures var r := PolygonVertices(verts, fill, w, border, ext);
      forall i :: 0 <= i < |verts| - 2 ==>
        r[3 * i] == Plain(verts[0], fill) && r[3 * i + 1] == Plain(verts[i + 1], fill) && r[3 * i + 2] == Plain(verts[i + 2], fill)
    ensures Outlined(w, border) ==>
      var r := PolygonVertices(verts, fill, w, border, ext);
      forall i, m :: 0 <= i < |verts| && 0 <= m < 6 ==>
        r[3 * (|verts| - 2) + 6 * i + m] == EdgeStroke(verts, ext, w, border, i)[m]
  {
    FanAt(verts, fill, |verts| - 2);
    StrokeAt(verts, ext, w, border, |verts|);
  }

  /** The corners `drawSolidRect` hands to the polygon fill. */
  function RectCorners(o: Vec2, d: Vec2): seq<Vec2> { [o, Vec2(d.x, o.y), d, Vec2(o.x, d.y)] }

  /** A solid rectangle is two fan triangles sharing the diagonal from the
      origin to the destination corner. */
  lemma SolidRectIsTwoTriangles(o: Vec2, d: Vec2, c: Color4F)
    ensures FanFill(RectCorners(o, d), c)
         == Triangle(o, Vec2(d.x, o.y), d, c) + Triangle(o, d, Vec2(o.x, d.y), c)
  {
    var vs := RectCorners(o, d);
    assert Fan(vs, c, 2) == Fan(vs, c, 1) + Triangle(o, d, Vec2(o.x, d.y), c);
    assert Fan(vs, c, 1) == Triangle(o, Vec2(d.x, o.y), d, c);
  }

  // ---------------------------------------------------------------- circles

  /** The points `drawCircle` and `drawSolidCircle` sample: `rim(i)` for
      `i = 0 .. segments`, where `rim` is the host's trigonometric sampling
      of the (possibly squashed) circle. */
  function RimPoints(rim: nat -> Vec2, n: nat): seq<Vec2>
  {
    if n == 0 then [] else RimPoints(rim, n - 1) + [rim(n - 1)]
  }

  lemma {:induction false} RimPointsAt(rim: nat -> Vec2, n: nat)
    ensures |RimPoints(rim, n)| == n
    ensures forall i :: 0 <= i < n ==> RimPoints(rim, n)[i] == rim(i)
  {
    if n > 0 { RimPointsAt(rim, n - 1); }
  }

  /** The point list a circle outline hands to `drawPoly`: the `segments + 1`
      rim samples, then the centre if a line to the centre is drawn. */
  function CirclePoints(center: Vec2, rim: nat -> Vec2, segments: nat, toCenter: bool): seq<Vec2>
  {
    RimPoints(rim, segments + 1) + (if toCenter then [center] else [])
  }

  /** A circle outline is a closed polyline through the rim samples in
      order (and the centre, if requested): `2 * (segments + 1)` line
      vertices, or `2 * (segments + 2)` with the line to the centre, whose
      last pair returns to the first sample. */
  lemma CircleOutlineShape(center: Vec2, rim: nat -> Vec2, segments: nat, toCenter: bool, c: Color4F)
    ensures var lines := PolyLines(CirclePoints(center, rim, segments, toCenter), true, c);
      |lines| == (if toCenter then 2 * (segments + 2) else 2 * (segments + 1)) &&
      (forall i :: 0 <= i < segments ==> lines[2 * i] == Plain(rim(i), c) && lines[2 * i + 1] == Plain(rim(i + 1), c)) &&
      lines[|lines| - 1] == Plain(rim(0), c) &&
      (toCenter ==> lines[|lines| - 2] == Plain(center, c))
  {
    var pts := CirclePoints(center, rim, segments, toCenter);
    RimPointsAt(rim, segments + 1);
    PolyLinesShape(pts, true, c);
    assert forall i :: 0 <= i <= segments ==> pts[i] == rim(i);
  }

  /** A solid circle fills the fan over the first `segments` samples:
      `segments - 2` triangles, all from sample 0. */
  lemma SolidCircleShape(rim: nat -> Vec2, segments: nat, c: Color4F, ext: nat -> Extrude)
    requires segments >= 2
    ensures var tris := PolygonVertices(RimPoints(rim, segments), c, 0.0, Color4F(0.0, 0.0, 0.0, 0.0), ext);
      |tris| == 3 * (segments - 2) &&
      forall i :: 0 <= i < segments - 2 ==>
        tris[3 * i] == Plain(rim(0), c) && tris[3 * i + 1] == Plain(rim(i + 1), c) && tris[3 * i + 2] == Plain(rim(i + 2), c)
  {
    RimPointsAt(rim, segments);
    PolygonVerticesLayout(RimPoints(rim, segments), c, 0.0, Color4F(0.0, 0.0, 0.0, 0.0), ext);
    PolygonTrianglesCorrect(RimPoints(rim, segments), c, 0.0, Color4F(0.0, 0.0, 0.0, 0.0), ext);
  }
}

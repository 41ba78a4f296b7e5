/** MGRDrawNode: an immediate-mode drawing node that keeps three growable
    CPU vertex buffers (triangles, GL lines, GL points), each with a count,
    a capacity and a dirty flag meaning "changed since the last GPU upload". */
module DrawNodes {
  import opened Types
  import opened DrawShapes

  /** The draw commands `draw` queues, one per non-empty buffer. */
  datatype Command = TrianglesCommand | PointsCommand | LinesCommand

  function Rank(c: Command): nat
  {
    match c
    case TrianglesCommand => 0
    case PointsCommand => 1
    case LinesCommand => 2
  }

  /** The capacity after `ensureCapacity(n)`: unchanged when `count + n`
      fits, otherwise grown by `max(capacity, n)`. */
  function GrownCapacity(capacity: nat, count: nat, n: nat): (r: nat)
    ensures capacity <= r
    ensures count <= capacity ==> count + n <= r
    ensures count <= capacity ==> (r == capacity <==> count + n <= capacity)
    ensures r != capacity ==> r >= 2 * capacity && r >= capacity + n
  {
    if count + n > capacity then capacity + Max(capacity, n) else capacity
  }

  /** `realloc`: a buffer of `n` slots whose first `a.Length` slots are the
      old contents. */
  method Realloc(a: array<Vertex>, n: nat) returns (b: array<Vertex>)
    requires a.Length <= n
    ensures fresh(b) && b.Length == n
    ensures b[..a.Length] == a[..]
  {
    b := new Vertex[n];
    var i := 0;
    while i < a.Length
      invariant 0 <= i <= a.Length
      invariant forall k :: 0 <= k < i ==> b[k] == a[k]
    {
      b[i] := a[i];
      i := i + 1;
    }
  }

  /** Copies `vs` into `a` at `at`, as the struct stores of `drawDot`,
      `drawPolygon` and the other writers do through an advancing pointer. */
  method Store(a: array<Vertex>, at: nat, vs: seq<Vertex>)
    requires at + |vs| <= a.Length
    modifies a
    ensures a[..at + |vs|] == old(a[..at]) + vs
    ensures forall k :: at + |vs| <= k < a.Length ==> a[k] == old(a[k])
  {
    var i := 0;
    while i < |vs|
      invariant 0 <= i <= |vs|
      invariant forall k :: 0 <= k < at ==> a[k] == old(a[k])
      invariant forall k :: 0 <= k < i ==> a[at + k] == vs[k]
      invariant forall k :: at + i <= k < a.Length ==> a[k] == old(a[k])
    {
      a[at + i] := vs[i];
      i := i + 1;
    }
    assert a[..at + |vs|] == old(a[..at]) + vs by {
      forall k | 0 <= k < at + |vs| ensures a[..at + |vs|][k] == (old(a[..at]) + vs)[k] {
        if k >= at { assert a[at + (k - at)] == vs[k - at]; }
      }
    }
  }

  /** The pointer walk of `drawPoly`: the pairs `(poli[i], poli[i + 1])`,
      then the closing pair, written from slot `at` on. */
  method WritePolyLines(a: array<Vertex>, at: nat, poli: seq<Vec2>, closePolygon: bool, color: Color4F)
    requires |poli| >= 1
    requires at + (if closePolygon then 2 * |poli| else 2 * (|poli| - 1)) <= a.Length
    modifies a
    ensures |PolyLines(poli, closePolygon, color)| == if closePolygon then 2 * |poli| else 2 * (|poli| - 1)
    ensures a[..at + |PolyLines(poli, closePolygon, color)|] == old(a[..at]) + PolyLines(poli, closePolygon, color)
    ensures forall k :: at + |PolyLines(poli, closePolygon, color)| <= k < a.Length ==> a[k] == old(a[k])
  {
    PolyLinesShape(poli, closePolygon, color);
    var point := at;
    var i := 0;
    while i < |poli| - 1
      invariant 0 <= i <= |poli| - 1
      invariant point == at + 2 * i
      invariant a[..point] == old(a[..at]) + OpenPairs(poli, color, i)
      invariant forall k :: point <= k < a.Length ==> a[k] == old(a[k])
    {
      OpenPairsAt(poli, color, i);
      AppendAssoc(old(a[..at]), OpenPairs(poli, color, i), Segment(poli[i], poli[i + 1], color));
      Store(a, point, Segment(poli[i], poli[i + 1], color));
      point := point + 2;
      i := i + 1;
    }
    if closePolygon {
      AppendAssoc(old(a[..at]), OpenPairs(poli, color, |poli| - 1), Segment(poli[|poli| - 1], poli[0], color));
      Store(a, point, Segment(poli[|poli| - 1], poli[0], color));
    }
  }

  /** The first loop of `drawPolygon`: the fan `(verts[0], verts[i + 1],
      verts[i + 2])`, written from slot `at` on. */
  method WriteFan(a: array<Vertex>, at: nat, verts: seq<Vec2>, fill: Color4F)
    requires at + |FanFill(verts, fill)| <= a.Length
    modifies a
    ensures a[..at + |FanFill(verts, fill)|] == old(a[..at]) + FanFill(verts, fill)
    ensures forall k :: at + |FanFill(verts, fill)| <= k < a.Length ==> a[k] == old(a[k])
  {
    if |verts| >= 2 {
      var cursor := at;
      var i := 0;
      while i < |verts| - 2
        invariant 0 <= i <= |verts| - 2
        invariant cursor == at + 3 * i
        invariant a[..cursor] == old(a[..at]) + Fan(verts, fill, i)
        invariant forall k :: cursor <= k < a.Length ==> a[k] == old(a[k])
      {
        AppendAssoc(old(a[..at]), Fan(verts, fill, i), Triangle(verts[0], verts[i + 1], verts[i + 2], fill));
        Store(a, cursor, Triangle(verts[0], verts[i + 1], verts[i + 2], fill));
        cursor := cursor + 3;
        i := i + 1;
      }
    }
  }

  /** The outline loop of `drawPolygon`: two triangles per edge, written
      from slot `at` on. */
  method WriteStroke(a: array<Vertex>, at: nat, verts: seq<Vec2>, ext: nat -> Extrude, w: real, border: Color4F)
    requires at + 6 * |verts| <= a.Length
    modifies a
    ensures |Stroke(verts, ext, w, border, |verts|)| == 6 * |verts|
    ensures a[..at + 6 * |verts|] == old(a[..at]) + Stroke(verts, ext, w, border, |verts|)
  {
    var cursor := at;
    var e := 0;
    while e < |verts|
      invariant 0 <= e <= |verts|
      invariant cursor == at + 6 * e
      invariant a[..cursor] == old(a[..at]) + Stroke(verts, ext, w, border, e)
    {
      WriteEdge(a, at, verts, ext, w, border, e, old(a[..at]));
      cursor := cursor + 6;
      e := e + 1;
    }
  }

  /** One step of the outline loop: the stroke of edge `e` goes right after
      the strokes of the edges before it. */
  method WriteEdge(a: array<Vertex>, at: nat, verts: seq<Vec2>, ext: nat -> Extrude, w: real, border: Color4F,
                   e: nat, ghost prefix: seq<Vertex>)
    requires e < |verts| && at + 6 * |verts| <= a.Length
    requires a[..at + 6 * e] == prefix + Stroke(verts, ext, w, border, e)
    modifies a
    ensures a[..at + 6 * (e + 1)] == prefix + Stroke(verts, ext, w, border, e + 1)
  {
    AppendAssoc(prefix, Stroke(verts, ext, w, border, e), EdgeStroke(verts, ext, w, border, e));
    Store(a, at + 6 * e, EdgeStroke(verts, ext, w, border, e));
  }

  /** The loop of `drawPoints`: one point vertex per position, written
      from slot `at` on. */
  method WritePoints(a: array<Vertex>, at: nat, positions: seq<Vec2>, pointSize: real, color: Color4F)
    requires at + |positions| <= a.Length
    modifies a
    ensures a[..at + |positions|] == old(a[..at]) + PointVertices(positions, pointSize, color)
  {
    var i := 0;
    while i < |positions|
      invariant 0 <= i <= |positions|
      invariant a[..at + i] == old(a[..at]) + PointVertices(positions[..i], pointSize, color)
    {
      a[at + i] := PointVertex(positions[i], pointSize, color);
      assert positions[..i + 1][..i] == positions[..i];
      AppendAssoc(old(a[..at]), PointVertices(positions[..i], pointSize, color), [PointVertex(positions[i], pointSize, color)]);
      i := i + 1;
    }
    assert positions[..|positions|] == positions;
  }

  /** Both loops of `drawPolygon`, written from slot `at` on. */
  method WritePolygon(a: array<Vertex>, at: nat, verts: seq<Vec2>, fill: Color4F, w: real, border: Color4F, ext: nat -> Extrude)
    requires at + |PolygonVertices(verts, fill, w, border, ext)| <= a.Length
    modifies a
    ensures a[..at + |PolygonVertices(verts, fill, w, border, ext)|] == old(a[..at]) + PolygonVertices(verts, fill, w, border, ext)
  {
    var fan := FanFill(verts, fill);
    WriteFan(a, at, verts, fill);
    if border.a > 0.0 && w > 0.0 {
      var stroke := Stroke(verts, ext, w, border, |verts|);
      WriteStroke(a, at + |fan|, verts, ext, w, border);
      AppendAssoc(old(a[..at]), fan, stroke);
    }
  }

  /** The sampling loop of `drawCircle` and `drawSolidCircle`: a fresh
      array with room for `segments + 2` points whose first `segments + 1`
      are the rim samples, in order. */
  method SampleRim(rim: nat -> Vec2, segments: nat) returns (vertices: array<Vec2>)
    ensures fresh(vertices) && vertices.Length == segments + 2
    ensures vertices[..segments + 1] == RimPoints(rim, segments + 1)
  {
    vertices := new Vec2[segments + 2];
    var i := 0;
    while i <= segments
      invariant 0 <= i <= segments + 1
      invariant vertices[..i] == RimPoints(rim, i)
      modifies vertices
    {
      vertices[i] := rim(i);
      i := i + 1;
    }
  }

  lemma AppendAssoc(x: seq<Vertex>, y: seq<Vertex>, z: seq<Vertex>)
    ensures x + y + z == x + (y + z)
  {
  }

  class DrawNode {
    var blendFunc: BlendFunc

    // triangles
    var buffer: array<Vertex>
    var bufferCount: nat
    var bufferCapacity: nat
    var dirty: bool

    // GL points
    var bufferGLPoint: array<Vertex>
    var bufferCountGLPoint: nat
    var bufferCapacityGLPoint: nat
    var dirtyGLPoint: bool

    // GL lines
    var bufferGLLine: array<Vertex>
    var bufferCountGLLine: nat
    var bufferCapacityGLLine: nat
    var dirtyGLLine: bool

    /** Each count is within its capacity, each capacity is its buffer's
        size, and the three buffers are distinct allocations. */
    ghost predicate Valid()
      reads this
    {
      bufferCount <= bufferCapacity == buffer.Length &&
      bufferCountGLPoint <= bufferCapacityGLPoint == bufferGLPoint.Length &&
      bufferCountGLLine <= bufferCapacityGLLine == bufferGLLine.Length &&
      buffer != bufferGLPoint && buffer != bufferGLLine && bufferGLPoint != bufferGLLine
    }

    /** The vertices in use in each buffer. */
    ghost function Triangles(): seq<Vertex>
      reads this, buffer
      requires Valid()
    {
      buffer[..bufferCount]
    }

    ghost function Points(): seq<Vertex>
      reads this, bufferGLPoint
      requires Valid()
    {
      bufferGLPoint[..bufferCountGLPoint]
    }

    ghost function Lines(): seq<Vertex>
      reads this, bufferGLLine
      requires Valid()
    {
      bufferGLLine[..bufferCountGLLine]
    }

    /** Nothing of the triangle buffer changed: allocation, count, capacity,
        flag and every slot. */
    twostate predicate TrianglesUntouched()
      reads this, buffer
    {
      buffer == old(buffer) && bufferCount == old(bufferCount) &&
      bufferCapacity == old(bufferCapacity) && dirty == old(dirty) &&
      buffer[..] == old(buffer[..])
    }

    twostate predicate PointsUntouched()
      reads this, bufferGLPoint
    {
      bufferGLPoint == old(bufferGLPoint) && bufferCountGLPoint == old(bufferCountGLPoint) &&
      bufferCapacityGLPoint == old(bufferCapacityGLPoint) && dirtyGLPoint == old(dirtyGLPoint) &&
      bufferGLPoint[..] == old(bufferGLPoint[..])
    }

    twostate predicate LinesUntouched()
      reads this, bufferGLLine
    {
      bufferGLLine == old(bufferGLLine) && bufferCountGLLine == old(bufferCountGLLine) &&
      bufferCapacityGLLine == old(bufferCapacityGLLine) && dirtyGLLine == old(dirtyGLLine) &&
      bufferGLLine[..] == old(bufferGLLine[..])
    }

    /** The C++ constructor: no storage, zero counts, nothing dirty. */
    constructor ()
      ensures Valid()
      ensures bufferCapacity == bufferCapacityGLPoint == bufferCapacityGLLine == 0
      ensures bufferCount == bufferCountGLPoint == bufferCountGLLine == 0
      ensures !dirty && !dirtyGLPoint && !dirtyGLLine
      ensures blendFunc == AlphaPremultiplied
    {
      blendFunc := AlphaPremultiplied;
      buffer := new Vertex[0];
      bufferGLPoint := new Vertex[0];
      bufferGLLine := new Vertex[0];
      bufferCount, bufferCapacity, dirty := 0, 0, false;
      bufferCountGLPoint, bufferCapacityGLPoint, dirtyGLPoint := 0, 0, false;
      bufferCountGLLine, bufferCapacityGLLine, dirtyGLLine := 0, 0, false;
    }

    /** Room for `n` more triangle vertices, keeping every existing slot. */
    method EnsureCapacity(n: nat)
      requires Valid()
      modifies this
      ensures Valid()
      ensures bufferCapacity == GrownCapacity(old(bufferCapacity), old(bufferCount), n)
      ensures bufferCount + n <= bufferCapacity
      ensures bufferCount == old(bufferCount) && dirty == old(dirty) && blendFunc == old(blendFunc)
      ensures buffer[..old(bufferCapacity)] == old(buffer[..])
      ensures Triangles() == old(Triangles())
      ensures if old(bufferCount) + n <= old(bufferCapacity) then buffer == old(buffer) else fresh(buffer)
      ensures PointsUntouched() && LinesUntouched()
    {
      if bufferCount + n > bufferCapacity {
        bufferCapacity := bufferCapacity + Max(bufferCapacity, n);
        buffer := Realloc(buffer, bufferCapacity);
      }
    }

    method EnsureCapacityGLPoint(n: nat)
      requires Valid()
      modifies this
      ensures Valid()
      ensures bufferCapacityGLPoint == GrownCapacity(old(bufferCapacityGLPoint), old(bufferCountGLPoint), n)
      ensures bufferCountGLPoint + n <= bufferCapacityGLPoint
      ensures bufferCountGLPoint == old(bufferCountGLPoint) && dirtyGLPoint == old(dirtyGLPoint) && blendFunc == old(blendFunc)
      ensures bufferGLPoint[..old(bufferCapacityGLPoint)] == old(bufferGLPoint[..])
      ensures Points() == old(Points())
      ensures if old(bufferCountGLPoint) + n <= old(bufferCapacityGLPoint) then bufferGLPoint == old(bufferGLPoint) else fresh(bufferGLPoint)
      ensures TrianglesUntouched() && LinesUntouched()
    {
      if bufferCountGLPoint + n > bufferCapacityGLPoint {
        bufferCapacityGLPoint := bufferCapacityGLPoint + Max(bufferCapacityGLPoint, n);
        bufferGLPoint := Realloc(bufferGLPoint, bufferCapacityGLPoint);
      }
    }

    method EnsureCapacityGLLine(n: nat)
      requires Valid()
      modifies this
      ensures Valid()
      ensures bufferCapacityGLLine == GrownCapacity(old(bufferCapacityGLLine), old(bufferCountGLLine), n)
      ensures bufferCountGLLine + n <= bufferCapacityGLLine
      ensures bufferCountGLLine == old(bufferCountGLLine) && dirtyGLLine == old(dirtyGLLine) && blendFunc == old(blendFunc)
      ensures bufferGLLine[..old(bufferCapacityGLLine)] == old(bufferGLLine[..])
      ensures Lines() == old(Lines())
      ensures if old(bufferCountGLLine) + n <= old(bufferCapacityGLLine) then bufferGLLine == old(bufferGLLine) else fresh(bufferGLLine)
      ensures TrianglesUntouched() && PointsUntouched()
    {
      if bufferCountGLLine + n > bufferCapacityGLLine {
        bufferCapacityGLLine := bufferCapacityGLLine + Max(bufferCapacityGLLine, n);
        bufferGLLine := Realloc(bufferGLLine, bufferCapacityGLLine);
      }
    }

    /** `init`: premultiplied blending, room for 512 triangle, 64 point and
        256 line vertices, and all three buffers marked dirty. */
    method Init()
      requires Valid()
      modifies this
      ensures Valid()
      ensures blendFunc == AlphaPremultiplied
      ensures bufferCapacity == GrownCapacity(old(bufferCapacity), old(bufferCount), 512)
      ensures bufferCapacityGLPoint == GrownCapacity(old(bufferCapacityGLPoint), old(bufferCountGLPoint), 64)
      ensures bufferCapacityGLLine == GrownCapacity(old(bufferCapacityGLLine), old(bufferCountGLLine), 256)
      ensures old(bufferCapacity) == 0 ==> bufferCapacity == 512
      ensures old(bufferCapacityGLPoint) == 0 ==> bufferCapacityGLPoint == 64
      ensures old(bufferCapacityGLLine) == 0 ==> bufferCapacityGLLine == 256
      ensures Triangles() == old(Triangles()) && Points() == old(Points()) && Lines() == old(Lines())
      ensures dirty && dirtyGLPoint && dirtyGLLine
    {
      blendFunc := AlphaPremultiplied;
      EnsureCapacity(512);
      EnsureCapacityGLPoint(64);
      EnsureCapacityGLLine(256);
      dirty := true;
      dirtyGLLine := true;
      dirtyGLPoint := true;
    }

    /** `draw`: one command per non-empty buffer, in the order triangles,
        points, lines. */
    method Draw() returns (commands: seq<Command>)
      ensures (TrianglesCommand in commands) <==> bufferCount > 0
      ensures (PointsCommand in commands) <==> bufferCountGLPoint > 0
      ensures (LinesCommand in commands) <==> bufferCountGLLine > 0
      ensures forall i, j :: 0 <= i < j < |commands| ==> Rank(commands[i]) < Rank(commands[j])
    {
      commands := [];
      if bufferCount > 0 {
        commands := commands + [TrianglesCommand];
      }
      if bufferCountGLPoint > 0 {
        commands := commands + [PointsCommand];
      }
      if bufferCountGLLine > 0 {
        commands := commands + [LinesCommand];
      }
    }

    /** The upload step of `onDraw`: a dirty triangle buffer is sent to the
        GPU and is clean afterwards. */
    method OnDraw()
      requires Valid()
      modifies this
      ensures Valid() && !dirty
      ensures buffer == old(buffer) && bufferCount == old(bufferCount) && bufferCapacity == old(bufferCapacity)
      ensures Triangles() == old(Triangles()) && blendFunc == old(blendFunc)
      ensures PointsUntouched() && LinesUntouched()
    {
      if dirty {
        dirty := false;
      }
    }

    method OnDrawGLLine()
      requires Valid()
      modifies this
      ensures Valid() && !dirtyGLLine
      ensures bufferGLLine == old(bufferGLLine) && bufferCountGLLine == old(bufferCountGLLine)
      ensures bufferCapacityGLLine == old(bufferCapacityGLLine)
      ensures Lines() == old(Lines()) && blendFunc == old(blendFunc)
      ensures TrianglesUntouched() && PointsUntouched()
    {
      if dirtyGLLine {
        dirtyGLLine := false;
      }
    }

    method OnDrawGLPoint()
      requires Valid()
      modifies this
      ensures Valid() && !dirtyGLPoint
      ensures bufferGLPoint == old(bufferGLPoint) && bufferCountGLPoint == old(bufferCountGLPoint)
      ensures bufferCapacityGLPoint == old(bufferCapacityGLPoint)
      ensures Points() == old(Points()) && blendFunc == old(blendFunc)
      ensures TrianglesUntouched() && LinesUntouched()
    {
      if dirtyGLPoint {
        dirtyGLPoint := false;
      }
    }

    /** Appends one point vertex carrying the point size. */
    method DrawPoint(position: Vec2, pointSize: real, color: Color4F)
      requires Valid()
      modifies this, bufferGLPoint
      ensures bufferGLPoint == old(bufferGLPoint) || fresh(bufferGLPoint)
      ensures Valid() && dirtyGLPoint && blendFunc == old(blendFunc)
      ensures Points() == old(Points()) + [PointVertex(position, pointSize, color)]
      ensures bufferCapacityGLPoint == GrownCapacity(old(bufferCapacityGLPoint), old(bufferCountGLPoint), 1)
      ensures TrianglesUntouched() && LinesUntouched()
    {
      EnsureCapacityGLPoint(1);
      bufferGLPoint[bufferCountGLPoint] := PointVertex(position, pointSize, color);
      bufferCountGLPoint := bufferCountGLPoint + 1;
      dirtyGLPoint := true;
    }

    /** Appends one point vertex per position, in input order. */
    method DrawPoints(positions: seq<Vec2>, pointSize: real, color: Color4F)
      requires Valid()
      modifies this, bufferGLPoint
      ensures bufferGLPoint == old(bufferGLPoint) || fresh(bufferGLPoint)
      ensures Valid() && dirtyGLPoint && blendFunc == old(blendFunc)
      ensures Points() == old(Points()) + PointVertices(positions, pointSize, color)
      ensures bufferCapacityGLPoint == GrownCapacity(old(bufferCapacityGLPoint), old(bufferCountGLPoint), |positions|)
      ensures TrianglesUntouched() && LinesUntouched()
    {
      EnsureCapacityGLPoint(|positions|);
      WritePoints(bufferGLPoint, bufferCountGLPoint, positions, pointSize, color);
      bufferCountGLPoint := bufferCountGLPoint + |positions|;
      dirtyGLPoint := true;
    }

    /** The overload without a size draws points of size 1. */
    method DrawPointsOfUnitSize(positions: seq<Vec2>, color: Color4F)
      requires Valid()
      modifies this, bufferGLPoint
      ensures bufferGLPoint == old(bufferGLPoint) || fresh(bufferGLPoint)
      ensures Valid() && dirtyGLPoint && blendFunc == old(blendFunc)
      ensures Points() == old(Points()) + PointVertices(positions, 1.0, color)
      ensures TrianglesUntouched() && LinesUntouched()
    {
      DrawPoints(positions, 1.0, color);
    }

    /** Appends the segment (origin, destination) to the line buffer. */
    method DrawLine(origin: Vec2, destination: Vec2, color: Color4F)
      requires Valid()
      modifies this, bufferGLLine
      ensures bufferGLLine == old(bufferGLLine) || fresh(bufferGLLine)
      ensures Valid() && dirtyGLLine && blendFunc == old(blendFunc)
      ensures Lines() == old(Lines()) + Segment(origin, destination, color)
      ensures bufferCountGLLine == old(bufferCountGLLine) + 2
      ensures bufferCapacityGLLine == GrownCapacity(old(bufferCapacityGLLine), old(bufferCountGLLine), 2)
      ensures TrianglesUntouched() && PointsUntouched()
    {
      EnsureCapacityGLLine(2);
      bufferGLLine[bufferCountGLLine] := Plain(origin, color);
      bufferGLLine[bufferCountGLLine + 1] := Plain(destination, color);
      bufferCountGLLine := bufferCountGLLine + 2;
      dirtyGLLine := true;
    }

    /** The four-corner `drawRect`: the edges p1-p2, p2-p3, p3-p4, p4-p1. */
    method DrawQuadOutline(p1: Vec2, p2: Vec2, p3: Vec2, p4: Vec2, color: Color4F)
      requires Valid()
      modifies this, bufferGLLine
      ensures bufferGLLine == old(bufferGLLine) || fresh(bufferGLLine)
      ensures Valid() && dirtyGLLine && blendFunc == old(blendFunc)
      ensures Lines() == old(Lines()) + QuadOutline(p1, p2, p3, p4, color)
      ensures bufferCapacityGLLine ==
                GrownCapacity(GrownCapacity(GrownCapacity(GrownCapacity(old(bufferCapacityGLLine), old(bufferCountGLLine), 2),
                  old(bufferCountGLLine) + 2, 2), old(bufferCountGLLine) + 4, 2), old(bufferCountGLLine) + 6, 2)
      ensures TrianglesUntouched() && PointsUntouched()
    {
      DrawLine(p1, p2, color);
      DrawLine(p2, p3, color);
      DrawLine(p3, p4, color);
      DrawLine(p4, p1, color);
    }

    /** The two-corner `drawRect`: the axis-aligned rectangle outline. */
    method DrawRect(origin: Vec2, destination: Vec2, color: Color4F)
      requires Valid()
      modifies this, bufferGLLine
      ensures bufferGLLine == old(bufferGLLine) || fresh(bufferGLLine)
      ensures Valid() && dirtyGLLine && blendFunc == old(blendFunc)
      ensures Lines() == old(Lines()) + RectOutline(origin, destination, color)
      ensures bufferCapacityGLLine ==
                GrownCapacity(GrownCapacity(GrownCapacity(GrownCapacity(old(bufferCapacityGLLine), old(bufferCountGLLine), 2),
                  old(bufferCountGLLine) + 2, 2), old(bufferCountGLLine) + 4, 2), old(bufferCountGLLine) + 6, 2)
      ensures TrianglesUntouched() && PointsUntouched()
    {
      DrawLine(Vec2(origin.x, origin.y), Vec2(destination.x, origin.y), color);
      DrawLine(Vec2(destination.x, origin.y), Vec2(destination.x, destination.y), color);
      DrawLine(Vec2(destination.x, destination.y), Vec2(origin.x, destination.y), color);
      DrawLine(Vec2(origin.x, destination.y), Vec2(origin.x, origin.y), color);
    }

    /** `drawPoly` as written: it appends the polyline but leaves the line
        dirty flag as it was. */
    method DrawPolyUnflagged(poli: seq<Vec2>, closePolygon: bool, color: Color4F)
      requires Valid()
      requires |poli| >= 1
      modifies this, bufferGLLine
      ensures bufferGLLine == old(bufferGLLine) || fresh(bufferGLLine)
      ensures Valid() && blendFunc == old(blendFunc)
      ensures Lines() == old(Lines()) + PolyLines(poli, closePolygon, color)
      ensures dirtyGLLine == old(dirtyGLLine)
      ensures bufferCapacityGLLine == GrownCapacity(old(bufferCapacityGLLine), old(bufferCountGLLine),
                                                    if closePolygon then 2 * |poli| else 2 * (|poli| - 1))
      ensures TrianglesUntouched() && PointsUntouched()
    {
      var vertexCount := if closePolygon then 2 * |poli| else 2 * (|poli| - 1);
      EnsureCapacityGLLine(vertexCount);
      PolyLinesShape(poli, closePolygon, color);
      WritePolyLines(bufferGLLine, bufferCountGLLine, poli, closePolygon, color);
      bufferCountGLLine := bufferCountGLLine + vertexCount;
    }

    /** `drawPoly` with the line buffer marked dirty, as every other line
        primitive does: consecutive pairs `(poli[i], poli[i + 1])`, closed by
        `(poli[n - 1], poli[0])` when asked. */
    method DrawPoly(poli: seq<Vec2>, closePolygon: bool, color: Color4F)
      requires Valid()
      requires |poli| >= 1
      modifies this, bufferGLLine
      ensures bufferGLLine == old(bufferGLLine) || fresh(bufferGLLine)
      ensures Valid() && dirtyGLLine && blendFunc == old(blendFunc)
      ensures Lines() == old(Lines()) + PolyLines(poli, closePolygon, color)
      ensures bufferCapacityGLLine == GrownCapacity(old(bufferCapacityGLLine), old(bufferCountGLLine),
                                                    if closePolygon then 2 * |poli| else 2 * (|poli| - 1))
      ensures TrianglesUntouched() && PointsUntouched()
    {
      DrawPolyUnflagged(poli, closePolygon, color);
      dirtyGLLine := true;
    }

    /** `drawCircle`: the `segments + 1` rim samples (and the centre, with
        `drawLineToCenter`) drawn as a closed polyline. `rim(i)` is the
        host's sample at angle `i * 2 pi / segments + angle`, scaled by the
        radius and the x and y scale. It goes through `drawPoly` as written,
        so the line buffer is not marked dirty (see `DrawPolyUnflagged`). */
    method DrawCircle(center: Vec2, segments: nat, drawLineToCenter: bool, rim: nat -> Vec2, color: Color4F)
      requires Valid()
      modifies this, bufferGLLine
      ensures bufferGLLine == old(bufferGLLine) || fresh(bufferGLLine)
      ensures Valid() && dirtyGLLine == old(dirtyGLLine) && blendFunc == old(blendFunc)
      ensures Lines() == old(Lines()) + PolyLines(CirclePoints(center, rim, segments, drawLineToCenter), true, color)
      ensures bufferCapacityGLLine == GrownCapacity(old(bufferCapacityGLLine), old(bufferCountGLLine),
                                                    if drawLineToCenter then 2 * (segments + 2) else 2 * (segments + 1))
      ensures TrianglesUntouched() && PointsUntouched()
    {
      var vertices := SampleRim(rim, segments);
      if drawLineToCenter {
        vertices[segments + 1] := center;
        assert vertices[..segments + 2] == vertices[..segments + 1] + [center];
        DrawPolyUnflagged(vertices[..segments + 2], true, color);
      } else {
        assert vertices[..segments + 1] == CirclePoints(center, rim, segments, false);
        DrawPolyUnflagged(vertices[..segments + 1], true, color);
      }
    }

    /** Appends the triangle (p1, p2, p3). */
    method DrawTriangle(p1: Vec2, p2: Vec2, p3: Vec2, color: Color4F)
      requires Valid()
      modifies this, buffer
      ensures buffer == old(buffer) || fresh(buffer)
      ensures Valid() && dirty && blendFunc == old(blendFunc)
      ensures Triangles() == old(Triangles()) + Triangle(p1, p2, p3, color)
      ensures bufferCapacity == GrownCapacity(old(bufferCapacity), old(bufferCount), 3)
      ensures PointsUntouched() && LinesUntouched()
    {
      EnsureCapacity(3);
      Store(buffer, bufferCount, Triangle(p1, p2, p3, color));
      bufferCount := bufferCount + 3;
      dirty := true;
    }

    /** Appends the two triangles of a soft dot. */
    method DrawDot(pos: Vec2, radius: real, color: Color4F)
      requires Valid()
      modifies this, buffer
      ensures buffer == old(buffer) || fresh(buffer)
      ensures Valid() && dirty && blendFunc == old(blendFunc)
      ensures Triangles() == old(Triangles()) + DotVertices(pos, radius, color)
      ensures bufferCapacity == GrownCapacity(old(bufferCapacity), old(bufferCount), 6)
      ensures PointsUntouched() && LinesUntouched()
    {
      EnsureCapacity(6);
      var vs := DotVertices(pos, radius, color);
      ghost var before := Triangles();
      Store(buffer, bufferCount, vs[..3]);
      Store(buffer, bufferCount + 3, vs[3..]);
      AppendAssoc(before, vs[..3], vs[3..]);
      assert vs[..3] + vs[3..] == vs;
      bufferCount := bufferCount + 6;
      dirty := true;
    }

    /** `drawPolygon`: the fan fill from vertex 0, then, when the border is
        visible, two stroke triangles per edge; the count reserved and added
        is the number of triangles written (see `PolygonTriangles`). */
    method DrawPolygon(verts: seq<Vec2>, fillColor: Color4F, borderWidth: real, borderColor: Color4F, extrude: nat -> Extrude)
      requires Valid()
      modifies this, buffer
      ensures buffer == old(buffer) || fresh(buffer)
      ensures Valid() && dirty && blendFunc == old(blendFunc)
      ensures Triangles() == old(Triangles()) + PolygonVertices(verts, fillColor, borderWidth, borderColor, extrude)
      ensures bufferCapacity == GrownCapacity(old(bufferCapacity), old(bufferCount),
                                              3 * PolygonTriangles(|verts|, Outlined(borderWidth, borderColor)))
      ensures PointsUntouched() && LinesUntouched()
    {
      var outline := borderColor.a > 0.0 && borderWidth > 0.0;
      var vertexCount := 3 * PolygonTriangles(|verts|, outline);
      EnsureCapacity(vertexCount);
      PolygonTrianglesCorrect(verts, fillColor, borderWidth, borderColor, extrude);
      WritePolygon(buffer, bufferCount, verts, fillColor, borderWidth, borderColor, extrude);
      bufferCount := bufferCount + vertexCount;
      dirty := true;
    }

    /** `drawSolidPoly`: the polygon fill with the border switched off. */
    method DrawSolidPoly(poli: seq<Vec2>, color: Color4F)
      requires Valid()
      modifies this, buffer
      ensures buffer == old(buffer) || fresh(buffer)
      ensures Valid() && dirty && blendFunc == old(blendFunc)
      ensures Triangles() == old(Triangles()) + FanFill(poli, color)
      ensures bufferCapacity == GrownCapacity(old(bufferCapacity), old(bufferCount), 3 * PolygonTriangles(|poli|, false))
      ensures PointsUntouched() && LinesUntouched()
    {
      DrawPolygon(poli, color, 0.0, Color4F(0.0, 0.0, 0.0, 0.0), (i: nat) => Extrude(Zero2, Zero2));
    }

    /** `drawSolidRect`: two fan triangles over the rectangle's corners. */
    method DrawSolidRect(origin: Vec2, destination: Vec2, color: Color4F)
      requires Valid()
      modifies this, buffer
      ensures buffer == old(buffer) || fresh(buffer)
      ensures Valid() && dirty && blendFunc == old(blendFunc)
      ensures Triangles() == old(Triangles()) + Triangle(origin, Vec2(destination.x, origin.y), destination, color)
                                              + Triangle(origin, destination, Vec2(origin.x, destination.y), color)
      ensures bufferCapacity == GrownCapacity(old(bufferCapacity), old(bufferCount), 6)
      ensures PointsUntouched() && LinesUntouched()
    {
      var vertices := [origin, Vec2(destination.x, origin.y), destination, Vec2(origin.x, destination.y)];
      SolidRectIsTwoTriangles(origin, destination, color);
      DrawSolidPoly(vertices, color);
    }

    /** `drawSolidCircle`: samples `segments + 1` rim points and fills the
        fan over the first `segments` of them. */
    method DrawSolidCircle(segments: nat, rim: nat -> Vec2, color: Color4F)
      requires Valid()
      modifies this, buffer
      ensures buffer == old(buffer) || fresh(buffer)
      ensures Valid() && dirty && blendFunc == old(blendFunc)
      ensures Triangles() == old(Triangles()) + FanFill(RimPoints(rim, segments), color)
      ensures bufferCapacity == GrownCapacity(old(bufferCapacity), old(bufferCount), 3 * PolygonTriangles(segments, false))
      ensures PointsUntouched() && LinesUntouched()
    {
      var vertices := SampleRim(rim, segments);
      assert vertices[..segments] == RimPoints(rim, segments) by {
        assert vertices[..segments] == vertices[..segments + 1][..segments];
      }
      DrawSolidPoly(vertices[..segments], color);
    }

    /** `clear`: every buffer empty and dirty; storage kept. */
    method Clear()
      requires Valid()
      modifies this
      ensures Valid()
      ensures bufferCount == 0 && bufferCountGLPoint == 0 && bufferCountGLLine == 0
      ensures dirty && dirtyGLPoint && dirtyGLLine
      ensures buffer == old(buffer) && bufferGLPoint == old(bufferGLPoint) && bufferGLLine == old(bufferGLLine)
      ensures bufferCapacity == old(bufferCapacity) && bufferCapacityGLPoint == old(bufferCapacityGLPoint)
      ensures bufferCapacityGLLine == old(bufferCapacityGLLine) && blendFunc == old(blendFunc)
    {
      bufferCount := 0;
      dirty := true;
      bufferCountGLLine := 0;
      dirtyGLLine := true;
      bufferCountGLPoint := 0;
      dirtyGLPoint := true;
    }
  }

  /** `MGRDrawNode::create`: construction followed by `init`. */
  method Create() returns (d: DrawNode)
    ensures fresh(d) && d.Valid()
    ensures d.bufferCapacity == 512 && d.bufferCapacityGLPoint == 64 && d.bufferCapacityGLLine == 256
    ensures d.bufferCount == 0 && d.bufferCountGLPoint == 0 && d.bufferCountGLLine == 0
    ensures d.dirty && d.dirtyGLPoint && d.dirtyGLLine
  {
    d := new DrawNode();
    d.Init();
  }
}

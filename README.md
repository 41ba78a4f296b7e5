# MGR drawing, sprite and skeletal-animation core, in Dafny

This project models three engine classes from a cocos2d-x based game:

- **MGRDrawNode** is an immediate-mode drawing node. It keeps three growable
  CPU vertex buffers, for triangles, GL points and GL lines. Each buffer
  has a count, a capacity and a dirty flag. The dirty flag means the buffer
  changed since the last GPU upload. Every primitive (`drawPoint`,
  `drawLine`, `drawPoly`, `drawPolygon`, ...) reserves room and appends a
  fixed pattern of vertices at the current count.
- **MGRAnimate3D** is a skeletal-animation action. Three class-wide
  registries map a target node to the controller fading in on it, the one
  fading out and the one running. `startWithTarget` binds the animation's
  curves to bones or nodes and hands the target over, either at once or by
  a cross-fade. `update` advances the fade weights and moves the
  registries when a fade ends, then maps the normalised time into the
  animation's sub-range.
- **MGRSprite** is a textured quad. It keeps its four corners (position,
  colour, texture coordinate) in step with its texture rectangle, flip
  flags, texture and colour. It marks itself and the sprites below it
  dirty when its transform changes.

Layout:

- `types.dfy` (module `Types`): the shared value types.
- `draw_shapes.dfy` (module `DrawShapes`): the vertex patterns as pure
  functions, and lemmas about their lengths and layouts.
- `draw_node.dfy` (module `DrawNodes`): the `DrawNode` class. It is built
  on arrays with explicit count, capacity and dirty fields. Each method
  states the new buffer contents as the old contents plus a vertex
  pattern, and states that the other two buffers are untouched.
- `animate3d.dfy` (module `Animation`): the name search, curve binding,
  fade and sampling functions. It also holds the `Scheduler` class (the
  registries and the transition time) and the `Animate3D` class.
- `sprite.dfy` (module `Sprites`): the quad layout, texture-coordinate and
  colour functions, and the `Sprite` class.

Floats are `real`. Trigonometry and vector normalisation are host inputs:

- `drawCircle`'s rim samples are a function `rim: nat -> Vec2`.
- `drawPolygon`'s per-vertex miter offsets and normals are a function
  `extrude: nat -> Extrude`.

Node and bone pointers are `nat` identities. The scene graph below an
animation target is a `NodeTree` value. A skeleton is a name-to-bone map.

Two facts about the registries are easy to miss:

- A target can be in the running and the fade-in registry at once. The
  controller being replaced keeps its running entry for the whole
  cross-fade, while the new one sits in the fade-in registry
  (`MGRAnimate3D.cpp:242-255`). `Animation.Animate3D.StartWithTarget` and
  `Animation.CrossFade` state this.
- `removeFromMap` erases the target's key from all three registries,
  whichever controller each entry names (`MGRAnimate3D.cpp:442-452`). So
  stopping the controller that is fading out in the middle of a cross-fade
  also drops the other one's fade-in entry.
  `Animation.Animate3D.RemoveFromMap` and `Animation.Animate3D.Stop` state
  this.

## Model

| member | source | states |
|---|---|---|
| DrawShapes.PointVertices | cocos2d/cocos/2d/MGRDrawNode.cpp:351-365 | the point vertices of `drawPoints`, one per position with the size in the texture coordinate; `PointVerticesInOrder` proves length and order |
| DrawShapes.Segment | cocos2d/cocos/2d/MGRDrawNode.cpp:367-380 | the two vertices of one GL line, origin then destination, with texture coordinate (0, 0) |
| DrawShapes.PointVerticesInOrder | cocos2d/cocos/2d/MGRDrawNode.cpp:351-365 | `drawPoints` writes one vertex per point, in input order, each carrying the point size in its texture coordinate |
| DrawShapes.OpenPairs | cocos2d/cocos/2d/MGRDrawNode.cpp:404-413 | the open part of a polyline holds two vertices per consecutive pair |
| DrawShapes.OpenPairsAt | cocos2d/cocos/2d/MGRDrawNode.cpp:404-413 | pair i of the open polyline is (poli[i], poli[i+1]) |
| DrawShapes.PolyLines | cocos2d/cocos/2d/MGRDrawNode.cpp:390-425 | the line vertices of `drawPoly`: the consecutive pairs, then the closing pair when closed; `PolyLinesShape` proves length and layout |
| DrawShapes.QuadOutline | cocos2d/cocos/2d/MGRDrawNode.cpp:486-492 | the 8 line vertices of the four-corner `drawRect`: edges p1-p2, p2-p3, p3-p4, p4-p1 |
| DrawShapes.RectOutline | cocos2d/cocos/2d/MGRDrawNode.cpp:382-388 | the 8 line vertices of the two-corner `drawRect`; `RectOutlineCloses` proves it is the four-corner outline on the axis-aligned corners |
| DrawShapes.PolyLinesShape | cocos2d/cocos/2d/MGRDrawNode.cpp:390-425 | a polyline on n >= 1 points has 2n vertices closed and 2(n-1) open; pair i is (poli[i], poli[i+1]); the closing pair is (poli[n-1], poli[0]) |
| DrawShapes.RectOutlineCloses | cocos2d/cocos/2d/MGRDrawNode.cpp:382-388 | the two-corner rectangle is the four-corner one on its axis-aligned corners: 8 vertices, each edge starting where the last ended, the last ending at the first corner, every edge horizontal or vertical |
| DrawShapes.Triangle | cocos2d/cocos/2d/MGRDrawNode.cpp:622-638 | the three vertices of `drawTriangle`, in argument order, with texture coordinate (0, 0) |
| DrawShapes.DotVertices | cocos2d/cocos/2d/MGRDrawNode.cpp:465-484 | the 6 vertices of `drawDot`, the triangles (a, b, c) and (a, c, d) of the square around the centre; `DotIsSquare` proves their geometry |
| DrawShapes.DotIsSquare | cocos2d/cocos/2d/MGRDrawNode.cpp:465-484 | a dot is 6 vertices, the triangles (a,b,c) and (a,c,d); each vertex sits at pos + radius * tex, with tex a (±1, ±1) corner |
| DrawShapes.Fan | cocos2d/cocos/2d/MGRDrawNode.cpp:507-516 | k fan triangles are 3k vertices |
| DrawShapes.FanAt | cocos2d/cocos/2d/MGRDrawNode.cpp:507-516 | fan triangle i is (verts[0], verts[i+1], verts[i+2]) |
| DrawShapes.FanFill | cocos2d/cocos/2d/MGRDrawNode.cpp:504-516 | the fill of `drawPolygon`: count - 2 fan triangles from vertex 0, none below 3 vertices; `FanAt` and `PolygonVerticesLayout` prove the layout |
| DrawShapes.EdgeStroke | cocos2d/cocos/2d/MGRDrawNode.cpp:538-567 | the two outline triangles of one edge, from the host's miter offsets scaled by the border width; `EdgeStrokeSpansEdge` proves which points they join |
| DrawShapes.Stroke | cocos2d/cocos/2d/MGRDrawNode.cpp:538-567 | the outline of k edges is 6k vertices |
| DrawShapes.StrokeAt | cocos2d/cocos/2d/MGRDrawNode.cpp:538-567 | slots 6i..6i+5 of the outline are the two triangles of edge i |
| DrawShapes.EdgeStrokeSpansEdge | cocos2d/cocos/2d/MGRDrawNode.cpp:538-567 | edge i's two triangles share the inner point of vertex i and the outer point of vertex (i+1) mod n; the inner vertices carry the negated normal |
| DrawShapes.PolygonVertices | cocos2d/cocos/2d/MGRDrawNode.cpp:493-574 | everything `drawPolygon` writes: the fan fill, then the stroke of every edge when the border is visible; `PolygonVerticesLayout` proves the layout |
| DrawShapes.SourcePolygonTriangles | cocos2d/cocos/2d/MGRDrawNode.cpp:499-502 | the triangle count as written: 3n - 2 with an outline, n - 2 without; `OutlinedMonogonOverruns` and `SmallPolygonCountNegative` show where it is wrong |
| DrawShapes.PolygonTriangles | cocos2d/cocos/2d/MGRDrawNode.cpp:497-574 | the corrected triangle count, n - 2 fill triangles (0 below 2) plus 2n stroke triangles; `PolygonTrianglesCorrect` proves it counts what is written |
| DrawShapes.PolygonTrianglesCorrect | cocos2d/cocos/2d/MGRDrawNode.cpp:497-502 | the corrected triangle count is the number written for every vertex count; from two vertices on, it is the source's 3n-2 with an outline and n-2 without |
| DrawShapes.OutlinedMonogonOverruns | cocos2d/cocos/2d/MGRDrawNode.cpp:499-502 | as written, an outlined one-vertex polygon reserves and counts 3 vertices but the loops write 6 |
| DrawShapes.SmallPolygonCountNegative | cocos2d/cocos/2d/MGRDrawNode.cpp:499-502 | as written, an empty polygon, or a one-vertex polygon without outline, gets a negative vertex count; nothing is written and the corrected count is 0 |
| DrawShapes.PolygonVerticesLayout | cocos2d/cocos/2d/MGRDrawNode.cpp:493-574 | a polygon of n >= 2 vertices writes 3(n-2) vertices, or 3(3n-2) with outline; the fan from vertex 0 comes first, then the stroke of every edge in order |
| DrawShapes.SolidRectIsTwoTriangles | cocos2d/cocos/2d/MGRDrawNode.cpp:576-586 | a solid rectangle is the two fan triangles that share the origin-destination diagonal |
| DrawShapes.RimPoints | cocos2d/cocos/2d/MGRDrawNode.cpp:437-445 | the rim samples of a circle in sampling order; `RimPointsAt` proves sample i is the host's i-th point |
| DrawShapes.CirclePoints | cocos2d/cocos/2d/MGRDrawNode.cpp:427-459 | the point list `drawCircle` hands to `drawPoly`: segments + 1 rim samples, then the centre if asked; `CircleOutlineShape` proves the outline shape |
| DrawShapes.RimPointsAt | cocos2d/cocos/2d/MGRDrawNode.cpp:437-445 | sample i of a circle is the host's i-th rim point, for i < n |
| DrawShapes.CircleOutlineShape | cocos2d/cocos/2d/MGRDrawNode.cpp:427-459 | a circle outline is a closed polyline through the segments+1 rim samples in order, and the centre when asked: 2(segments+1) or 2(segments+2) vertices, closing on the first sample |
| DrawShapes.SolidCircleShape | cocos2d/cocos/2d/MGRDrawNode.cpp:593-616 | a solid circle fills the fan over the first `segments` samples: segments-2 triangles, all from sample 0 |
| DrawNodes.Rank | cocos2d/cocos/2d/MGRDrawNode.cpp:214-236 | the queueing order of `draw`: triangles, then points, then lines; used by the ordering ensures of `DrawNodes.DrawNode.Draw` |
| DrawNodes.GrownCapacity | cocos2d/cocos/2d/MGRDrawNode.cpp:148-157 | capacity never shrinks; afterwards count + n fits; it changes exactly when count + n did not fit, and then at least doubles and gains n |
| DrawNodes.Realloc | cocos2d/cocos/2d/MGRDrawNode.cpp:154 | the grown buffer is a fresh allocation of the new size whose prefix is the old contents |
| DrawNodes.Store | cocos2d/cocos/2d/MGRDrawNode.cpp:474-479 | a struct store through the write pointer puts the vertices at the slot and leaves every other slot as it was |
| DrawNodes.WritePolyLines | cocos2d/cocos/2d/MGRDrawNode.cpp:404-422 | the pointer walk of `drawPoly` leaves the polyline from the slot on; the slots after it are unchanged |
| DrawNodes.WriteFan | cocos2d/cocos/2d/MGRDrawNode.cpp:504-516 | the fill loop of `drawPolygon` leaves the fan fill from the slot on; the slots after it are unchanged |
| DrawNodes.WriteStroke | cocos2d/cocos/2d/MGRDrawNode.cpp:538-567 | the outline loop writes the stroke of every edge from the slot on |
| DrawNodes.WriteEdge | cocos2d/cocos/2d/MGRDrawNode.cpp:538-567 | one pass of the outline loop puts the two triangles of edge e right after the strokes of the edges before it |
| DrawNodes.SampleRim | cocos2d/cocos/2d/MGRDrawNode.cpp:437-445 | the sampling loop of `drawCircle` and `drawSolidCircle` fills a fresh array whose first segments + 1 points are the rim samples, in order |
| DrawNodes.WritePolygon | cocos2d/cocos/2d/MGRDrawNode.cpp:504-567 | both loops together write the fill and then, when outlined, the stroke |
| DrawNodes.WritePoints | cocos2d/cocos/2d/MGRDrawNode.cpp:355-361 | the loop of `drawPoints` writes one point vertex per position, in order, from the slot on |
| DrawNodes.DrawNode.constructor | cocos2d/cocos/2d/MGRDrawNode.cpp:84-105 | no storage, zero counts, no dirty flag, premultiplied blending |
| DrawNodes.DrawNode.EnsureCapacity | cocos2d/cocos/2d/MGRDrawNode.cpp:148-157 | afterwards count + n <= capacity; the capacity follows `GrownCapacity`; the count, the contents in use and the other buffers are untouched; the array is reallocated only when the request did not fit |
| DrawNodes.DrawNode.EnsureCapacityGLPoint | cocos2d/cocos/2d/MGRDrawNode.cpp:159-168 | the same, for the point buffer |
| DrawNodes.DrawNode.EnsureCapacityGLLine | cocos2d/cocos/2d/MGRDrawNode.cpp:170-179 | the same, for the line buffer |
| DrawNodes.DrawNode.Init | cocos2d/cocos/2d/MGRDrawNode.cpp:181-212 | premultiplied blending; room for 512 triangle, 64 point and 256 line vertices (exactly those capacities from empty buffers); contents kept; all three buffers dirty |
| DrawNodes.DrawNode.Draw | cocos2d/cocos/2d/MGRDrawNode.cpp:214-236 | a command for a buffer is queued if and only if its count is positive, in the order triangles, points, lines |
| DrawNodes.DrawNode.OnDraw | cocos2d/cocos/2d/MGRDrawNode.cpp:246-252 | the upload leaves the triangle buffer clean and changes nothing else |
| DrawNodes.DrawNode.OnDrawGLLine | cocos2d/cocos/2d/MGRDrawNode.cpp:278-283 | the same, for the line buffer |
| DrawNodes.DrawNode.OnDrawGLPoint | cocos2d/cocos/2d/MGRDrawNode.cpp:310-316 | the same, for the point buffer |
| DrawNodes.DrawNode.DrawPoint | cocos2d/cocos/2d/MGRDrawNode.cpp:334-344 | exactly one point vertex with texture coordinate (size, 0) is appended; the point buffer is dirty; the triangle and line buffers are untouched |
| DrawNodes.DrawNode.DrawPoints | cocos2d/cocos/2d/MGRDrawNode.cpp:351-365 | one point vertex per position is appended, in order; only the point buffer changes |
| DrawNodes.DrawNode.DrawPointsOfUnitSize | cocos2d/cocos/2d/MGRDrawNode.cpp:346-349 | the overload without a size appends points of size 1 |
| DrawNodes.DrawNode.DrawLine | cocos2d/cocos/2d/MGRDrawNode.cpp:367-380 | the two vertices (origin, destination) are appended to the line buffer, which is dirty; the count grows by 2 and the capacity follows `GrownCapacity`; the other buffers are untouched |
| DrawNodes.DrawNode.DrawQuadOutline | cocos2d/cocos/2d/MGRDrawNode.cpp:486-492 | the 8 vertices of the edges p1-p2, p2-p3, p3-p4, p4-p1 are appended; the line capacity is the result of four `GrownCapacity` steps of 2 |
| DrawNodes.DrawNode.DrawRect | cocos2d/cocos/2d/MGRDrawNode.cpp:382-388 | the 8 vertices of the axis-aligned outline are appended; the line capacity is the result of four `GrownCapacity` steps of 2 |
| DrawNodes.DrawNode.DrawPolyUnflagged | cocos2d/cocos/2d/MGRDrawNode.cpp:390-425 | as written, the polyline is appended but the line dirty flag keeps its old value; the capacity is `GrownCapacity` of a request for 2n closed or 2(n-1) open |
| DrawNodes.DrawNode.DrawPoly | cocos2d/cocos/2d/MGRDrawNode.cpp:390-425 | corrected: the polyline is appended and the line buffer is dirty; the capacity is `GrownCapacity` of a request for 2n closed or 2(n-1) open |
| DrawNodes.DrawNode.DrawCircle | cocos2d/cocos/2d/MGRDrawNode.cpp:427-459 | the closed polyline through the rim samples, and the centre if asked, is appended through `drawPoly` as written, so the line dirty flag keeps its old value; the other buffers are untouched; the capacity is `GrownCapacity` of a request for the polyline's vertex count |
| DrawNodes.DrawNode.DrawTriangle | cocos2d/cocos/2d/MGRDrawNode.cpp:622-638 | exactly (p1, p2, p3) is appended to the triangle buffer, which is dirty |
| DrawNodes.DrawNode.DrawDot | cocos2d/cocos/2d/MGRDrawNode.cpp:465-484 | the 6 vertices of the dot are appended to the triangle buffer, which is dirty |
| DrawNodes.DrawNode.DrawPolygon | cocos2d/cocos/2d/MGRDrawNode.cpp:493-574 | the fan fill and, when the border is visible, the stroke are appended; the room reserved is the corrected vertex count; the other buffers are untouched |
| DrawNodes.DrawNode.DrawSolidPoly | cocos2d/cocos/2d/MGRDrawNode.cpp:588-591 | exactly the fan fill is appended: no outline; it goes through the corrected polygon count: with fewer than 3 points nothing is appended, and below 2 points the model appends nothing where the source's count (`MGRDrawNode.cpp:499-502`) is negative; the capacity is `GrownCapacity` of a request for 3 times the corrected fill count |
| DrawNodes.DrawNode.DrawSolidRect | cocos2d/cocos/2d/MGRDrawNode.cpp:576-586 | the two triangles sharing the origin-destination diagonal are appended; the capacity is `GrownCapacity` of a request for 6 |
| DrawNodes.DrawNode.DrawSolidCircle | cocos2d/cocos/2d/MGRDrawNode.cpp:593-616 | the fan over the first `segments` rim samples is appended; it goes through the corrected polygon count: with fewer than 3 samples nothing is appended, and below 2 samples the model appends nothing where the source's count (`MGRDrawNode.cpp:499-502`) is negative; the capacity is `GrownCapacity` of a request for 3 times the corrected fill count |
| DrawNodes.DrawNode.Clear | cocos2d/cocos/2d/MGRDrawNode.cpp:640-648 | all three counts are 0 and all three buffers dirty; storage and capacities are kept |
| DrawNodes.Create | cocos2d/cocos/2d/MGRDrawNode.cpp:133-146 | a new node has capacities 512, 64 and 256, zero counts and all three buffers dirty |
| Animation.FirstNamed | cocos2d/cocos/3d/MGRAnimate3D.cpp:128-142 | reference search: the result is the first element with the name; none exactly when no element has it |
| Animation.FirstNamedAppend | cocos2d/cocos/3d/MGRAnimate3D.cpp:135-140 | searching a concatenation finds the first part's match, or else the second part's |
| Animation.FindByName | cocos2d/cocos/3d/MGRAnimate3D.cpp:128-142 | `findChildByNameRecursivelyMGR`: the node itself when named so, otherwise the first match of the children in order; `FindByNameIsFirstInPreOrder` and `FindByNameSpec` prove what it finds |
| Animation.FindInChildren | cocos2d/cocos/3d/MGRAnimate3D.cpp:135-141 | the loop over the children from child i on, returning the first child subtree with a match; `FindInChildrenIsFirst` proves it |
| Animation.FindByNameIsFirstInPreOrder | cocos2d/cocos/3d/MGRAnimate3D.cpp:128-142 | the recursive child search returns exactly the first node of the depth-first pre-order walk with the name |
| Animation.FindInChildrenIsFirst | cocos2d/cocos/3d/MGRAnimate3D.cpp:135-141 | the loop over children from child i on returns the first pre-order match among those children |
| Animation.FindByNameSpec | cocos2d/cocos/3d/MGRAnimate3D.cpp:128-142 | a matching root is returned itself; a result has the name and lies in the subtree; no result iff no node of the subtree has the name |
| Animation.NodeNamed | cocos2d/cocos/3d/MGRAnimate3D.cpp:178-182 | the target itself when it has the curve's name, otherwise the recursive search below it; `NodeNamedFindsName` proves the result |
| Animation.Resolve | cocos2d/cocos/3d/MGRAnimate3D.cpp:162-219 | where a curve binds: a bone of a skinned sprite's skeleton, else a node found by name, else nothing; `BindingKinds` proves the cases |
| Animation.NodeNamedFindsName | cocos2d/cocos/3d/MGRAnimate3D.cpp:178-182 | the root test before the search changes nothing, and a bound node is a node of the subtree with the curve's name |
| Animation.BoneBindings | cocos2d/cocos/3d/MGRAnimate3D.cpp:162-219 | the bone table after binding the first k curves; `BindingsSound` and `BindingsComplete` prove each entry and each bound curve |
| Animation.NodeBindings | cocos2d/cocos/3d/MGRAnimate3D.cpp:162-219 | the node table after binding the first k curves; `BindingsSound` and `BindingsComplete` prove each entry and each bound curve |
| Animation.BindingsSound | cocos2d/cocos/3d/MGRAnimate3D.cpp:162-219 | every bone entry resolves back to that bone, every node entry to that node, and each names one of the curves walked |
| Animation.BindingsComplete | cocos2d/cocos/3d/MGRAnimate3D.cpp:150-221 | every curve that resolves to a bone or a node has an entry for it |
| Animation.BindingKinds | cocos2d/cocos/3d/MGRAnimate3D.cpp:156-221 | on a sprite with a skeleton, a bone name binds the bone and never a node; a sprite without a skeleton binds nothing; a non-sprite binds no bone |
| Animation.UnboundKinds | cocos2d/cocos/3d/MGRAnimate3D.cpp:156-221 | without a skeleton nothing binds, and a non-sprite binds no bone, at every step of the walk |
| Animation.ClampedDuration | cocos2d/cocos/3d/MGRAnimate3D.cpp:79-81 | the kept length is the request or the rest of the animation, and at most either |
| Animation.FrameRange | cocos2d/cocos/3d/MGRAnimate3D.cpp:93-100 | start time times rate is the start frame; length times rate is the frame count |
| Animation.QualityEvaluators | cocos2d/cocos/3d/MGRAnimate3D.cpp:399-414 | the evaluators `setQuality` installs: linear, slerp, linear for high; nearest for low; the previous ones for none; `Animation.Animate3D.SetQuality` states the three cases |
| Animation.SignedSpeed | cocos2d/cocos/3d/MGRAnimate3D.cpp:377-380 | `getSpeed`: the magnitude, negated when playing in reverse; `SpeedRoundTrip` proves it reads back a stored speed |
| Animation.SpeedRoundTrip | cocos2d/cocos/3d/MGRAnimate3D.cpp:377-386 | storing a speed as magnitude and sign and reading it back gives the speed |
| Animation.Fade | cocos2d/cocos/3d/MGRAnimate3D.cpp:288-314 | without a previous sample nothing changes; fading in, the weight is the elapsed fraction and the fade settles at weight 1 into Running; fading out, the weight is the remaining fraction and it settles at 0 |
| Animation.FadeStaysInUnitRange | cocos2d/cocos/3d/MGRAnimate3D.cpp:288-314 | with time moving forward, a fade step keeps the weight in [0, 1] and the fade time in [0, transition time], equal to the transition time once settled |
| Animation.CrossFadeWeightsSumToOne | cocos2d/cocos/3d/MGRAnimate3D.cpp:288-314 | a fade-in and a fade-out, each with its own last time, normalised time and duration but the same accumulated fade time and the same elapsed fade time (t - lastTime) * duration, have weights summing to 1 and settle together |
| Animation.SampleTime | cocos2d/cocos/3d/MGRAnimate3D.cpp:323-326 | the time the curves are sampled at: start + last * t, on 1 - t when reversed; `SampleTimeInRange` proves its range |
| Animation.SampleTimeInRange | cocos2d/cocos/3d/MGRAnimate3D.cpp:323-326 | the sample time lies in [start, start + last]; reverse at t samples forward at 1 - t |
| Animation.Scheduler.constructor | cocos2d/cocos/3d/MGRAnimate3D.cpp:34-37 | empty registries and a transition time of 0.1 |
| Animation.Animate3D.constructor | cocos2d/cocos/3d/MGRAnimate3D.cpp:40-75 | `create(animation)`: the constructor defaults, the animation's whole length, and the configured quality |
| Animation.Animate3D.Range | cocos2d/cocos/3d/MGRAnimate3D.cpp:77-91 | `create(animation, from, d)`: the length is clamped at the animation's end; start and last are from and the kept length as fractions of the whole; no target, Running at weight 1 with zero fade and sample time, speed 1 forward, the configured quality and its evaluators, empty curve tables |
| Animation.Animate3D.Frames | cocos2d/cocos/3d/MGRAnimate3D.cpp:93-100 | `createWithFrames`: everything `Range` states, on the time range of the frames: the start times the animation length and the frame rate is the start frame, and the length is clamped as in `Range` |
| Animation.Animate3D.GetSpeed | cocos2d/cocos/3d/MGRAnimate3D.cpp:377-380 | the signed speed of this controller; `Animation.Animate3D.SetSpeed` and `Animation.Animate3D.Reverse` state what it returns |
| Animation.Animate3D.SetSpeed | cocos2d/cocos/3d/MGRAnimate3D.cpp:381-386 | `getSpeed` then returns s, stored as magnitude abs(s) and reverse flag s < 0; the duration times abs(s) is the original interval; the sub-range, animation, quality, evaluators, fade fields, target and curve tables are unchanged |
| Animation.Animate3D.SetWeight | cocos2d/cocos/3d/MGRAnimate3D.cpp:388-392 | the weight becomes abs(w), which is w for a valid weight; the state, fade time, sample time, the whole setup, the target and the curve tables are unchanged |
| Animation.Animate3D.SetQuality | cocos2d/cocos/3d/MGRAnimate3D.cpp:399-414 | high picks linear, slerp, linear; low picks nearest for all three; none keeps the evaluators; everything else (animation, speed, direction, sub-range, durations, fade fields, target, curve tables) is unchanged |
| Animation.Animate3D.Clone | cocos2d/cocos/3d/MGRAnimate3D.cpp:103-117 | a fresh controller on the same animation, with no target, Running, zero fade and sample time, empty curve tables, the configured quality and its evaluators, and this one's speed, weight, sub-range, direction and durations |
| Animation.Animate3D.Reverse | cocos2d/cocos/3d/MGRAnimate3D.cpp:120-125 | a clone playing the other way, whose speed is the negated speed; otherwise the fresh clone state: no target, Running, zero fade and sample time, empty curve tables, the configured quality and its evaluators |
| Animation.Animate3D.ReverseTwice | cocos2d/cocos/3d/MGRAnimate3D.cpp:120-125 | reversing twice restores the direction and speed |
| Animation.Animate3D.Rebind | cocos2d/cocos/3d/MGRAnimate3D.cpp:150-227 | the bone and node tables are the bindings of every curve of the animation on the target |
| Animation.Animate3D.StartWithTarget | cocos2d/cocos/3d/MGRAnimate3D.cpp:145-269 | rebinds only when the target changes; then each hand-over case: immediate replacement below 0.001 s, cross-fade otherwise, nothing when already running, run and drop any fade-in entry when nothing runs; only this controller, the scheduler and the controller running on the target may change; in the immediate case that controller is untouched, in the cross-fade it keeps its target, setup and curve tables |
| Animation.Animate3D.HandOver | cocos2d/cocos/3d/MGRAnimate3D.cpp:229-268 | the registry and state changes of the four hand-over cases; target and curve tables kept; only this controller, the scheduler and the controller running on the target may change, that one untouched in the immediate case and keeping its target, setup and curve tables in the cross-fade |
| Animation.Animate3D.FadeOver | cocos2d/cocos/3d/MGRAnimate3D.cpp:244-254 | the running controller fades out from weight 1 and this one fades in from 0, both with zero fade and sample time; the running one keeps its target, setup and curve tables, this one its target and curve tables |
| Animation.Animate3D.Update | cocos2d/cocos/3d/MGRAnimate3D.cpp:284-326 | without a target nothing happens; otherwise the fade step per `Fade`, the registry move when the fade settles, lastTime = t, and a sample only with a quality other than none and a positive weight |
| Animation.Animate3D.RemoveFromMap | cocos2d/cocos/3d/MGRAnimate3D.cpp:442-452 | the target leaves all three registries; no other entry changes |
| Animation.Animate3D.Stop | cocos2d/cocos/3d/MGRAnimate3D.cpp:271-276 | the target's key is removed from all three registries and nothing else in them changes; the transition time is kept; the controller has no target; its setup, fade fields and curve tables are unchanged |
| Animation.CrossFade | cocos2d/cocos/3d/MGRAnimate3D.cpp:242-255 | starting b where a runs: a fades out at weight 1, b fades in at weight 0, and a keeps the running entry |
| Animation.StartLeavesOthers | cocos2d/cocos/3d/MGRAnimate3D.cpp:229-268 | starting a controller on a target leaves every controller other than it and the one running on that target unchanged: fade fields, target, curve tables and setup |
| Animation.SettleCrossFade | cocos2d/cocos/3d/MGRAnimate3D.cpp:288-314 | once both have accumulated the transition time, both fade entries are gone and b runs at weight 1, a at 0 |
| Sprites.Offset | cocos2d/cocos/2d/MGRSprite.cpp:229-230 | `_offsetPosition`: the rectangle centred in the untrimmed content size; `Sprites.QuadPositions` proves the quad starts there |
| Sprites.QuadPositions | cocos2d/cocos/2d/MGRSprite.cpp:221-247 | the quad is a rect-sized, axis-aligned rectangle at depth 0, starting at the offset and centred in the content size |
| Sprites.PixelRect | cocos2d/cocos/2d/MGRSprite.cpp:257 | `CC_RECT_POINTS_TO_PIXELS`: the rectangle scaled by the content scale factor, used by `Sprites.Sprite.SetTextureCoords` |
| Sprites.TexEdges | cocos2d/cocos/2d/MGRSprite.cpp:265-314 | the texture-space edges of the pixel rectangle, with width and height exchanged for a rotated rectangle |
| Sprites.TexQuadFor | cocos2d/cocos/2d/MGRSprite.cpp:284-334 | the corner texture coordinates for given edges, with the flips applied; `FlipsMirrorCorners` and `UnflippedLayouts` prove the layouts |
| Sprites.FlipsMirrorCorners | cocos2d/cocos/2d/MGRSprite.cpp:270-335 | in both layouts, toggling flippedX swaps the left and right corners' coordinates and toggling flippedY the bottom and top ones; each mirror undoes itself |
| Sprites.UnflippedLayouts | cocos2d/cocos/2d/MGRSprite.cpp:270-335 | unrotated: bl (left, bottom), br (right, bottom), tl (left, top), tr (right, top); rotated: bl (left, top), br (left, bottom), tl (right, top), tr (right, bottom) |
| Sprites.ModulatedChannel | cocos2d/cocos/2d/MGRSprite.cpp:569-574 | the channel scaled by opacity/255 and truncated: at most the channel and the opacity, unchanged at full opacity, zero at zero |
| Sprites.CornerColor | cocos2d/cocos/2d/MGRSprite.cpp:565-583 | alpha is the opacity; RGB is the displayed colour, scaled down when opacity modifies RGB |
| Sprites.BlendFor | cocos2d/cocos/2d/MGRSprite.cpp:601-614 | premultiplied blending exactly for a texture with premultiplied alpha; `Sprites.Sprite.UpdateBlendFunc` states the flag set beside it |
| Sprites.Sprite.constructor | cocos2d/cocos/2d/MGRSprite.cpp:93-142 | white corners, no flips, the texture or the white fallback, blending from the texture, the quad laid out for the rectangle, both dirty flags set |
| Sprites.Sprite.InitWithTexture | cocos2d/cocos/2d/MGRSprite.cpp:93-142 | the same, for the body of `initWithTexture` |
| Sprites.Sprite.ResetDefaults | cocos2d/cocos/2d/MGRSprite.cpp:98-120 | the field resets before `setTexture`, without the `setAnchorPoint` call of line 108: clean dirty flags, premultiplied blending with opacity modifying RGB, no flips, no offset, white corners; texture and displayed colour kept |
| Sprites.Sprite.SetTexture | cocos2d/cocos/2d/MGRSprite.cpp:184-214 | the texture becomes the given one or the white fallback; blending and colours are recomputed only when it changed |
| Sprites.Sprite.UpdateBlendFunc | cocos2d/cocos/2d/MGRSprite.cpp:601-614 | premultiplied blending and opacity-modifies-RGB exactly for a premultiplied texture; corner colours recomputed only when that flag changed |
| Sprites.Sprite.SetOpacityModifyRGB | cocos2d/cocos/2d/MGRSprite.cpp:585-592 | the flag is set; the colours are recomputed only on a change |
| Sprites.Sprite.UpdateColor | cocos2d/cocos/2d/MGRSprite.cpp:565-583 | all four corners get `CornerColor`; positions and texture coordinates stay |
| Sprites.Sprite.SetTextureRect | cocos2d/cocos/2d/MGRSprite.cpp:221-247 | the rectangle and untrimmed size are recorded, the offset and corners laid out, the texture coordinates set, the colours kept |
| Sprites.Sprite.SetTextureCoords | cocos2d/cocos/2d/MGRSprite.cpp:255-336 | without a texture nothing changes; otherwise the corner coordinates of the pixel rectangle with the flips applied, in the rotated or unrotated layout |
| Sprites.Sprite.SetFlippedX | cocos2d/cocos/2d/MGRSprite.cpp:533-540 | no-op when unchanged; a change on a laid-out quad swaps the left and right coordinates and nothing else |
| Sprites.Sprite.SetFlippedY | cocos2d/cocos/2d/MGRSprite.cpp:547-554 | the same, swapping the bottom and top coordinates |
| Sprites.Sprite.ToggleFlippedXTwice | cocos2d/cocos/2d/MGRSprite.cpp:533-540 | on a laid-out quad, toggling flippedX twice restores the quad |
| Sprites.Sprite.ToggleFlippedYTwice | cocos2d/cocos/2d/MGRSprite.cpp:547-554 | on a laid-out quad, toggling flippedY twice restores the quad |
| Sprites.Sprite.SetDirtyRecursively | cocos2d/cocos/2d/MGRSprite.cpp:419-431 | this sprite's flags become v and every sprite below it is dirty and recursively dirty |
| Sprites.Sprite.MarkDirtyRecursively | cocos2d/cocos/2d/MGRSprite.cpp:434-441 | acts only when not recursively dirty, and then marks the whole subtree; leaves recursiveDirty true |

## Left out

- OpenGL, VAO/VBO and renderer calls, and shader program lookup. An upload is modelled as clearing the dirty flag; `draw` queues abstract commands.
- The `Color4B(Color4F)` conversion in `MGRDrawNode`: vertices keep the `Color4F` colour.
- `cosf`/`sinf` sampling in `drawCircle` and `drawSolidCircle`: the rim points are a host function. Only their number and order are modelled.
- The normalise and miter loop of `drawPolygon` (`MGRDrawNode.cpp:520-536`): the offsets and normals are a host function. The second loop, which uses them, is modelled exactly.
- The scale-free `drawCircle` and `drawSolidCircle` overloads only forward with scale 1. The rim function covers every scale, so they have no member.
- Allocation failure (`new (std::nothrow)`, `realloc` returning null) and the destructor's `free`.
- DrawNodes.DrawNode.DrawPoly and DrawNodes.DrawNode.DrawPolyUnflagged: require at least one point. With none, `numberOfPoints - 1` wraps around as unsigned and the loop reads out of bounds.
- 32-bit overflow of the `int` and `unsigned` counts and capacities: counts are unbounded `nat`.
- The `ActionInterval` base behaviour (elapsed time, first tick, `step`) and retain/release.
- Curve evaluation and the bone and node transforms in `update`: Animation.Animate3D.Update returns the time the curves would be sampled at.
- The iteration order of the curve `unordered_map`: it is a sequence of names, taken in a fixed order.
- The `_animation` null test in the sprite branch of `startWithTarget`: the model always has an animation.
- `CCLOG` and the `hasCurve` warning.
- IEEE division: Animation.Animate3D.Update requires a positive transition time when a fade step divides by it. Animation.Animate3D.SetSpeed requires a non-zero speed. Animation.Animate3D.Range and Animation.Animate3D.Frames require a non-zero animation length and frame rate.
- Animation.Animate3D.SetWeight: the `CCASSERT(weight >= 0)` is a debug check; the model keeps the release behaviour, `fabsf`.
- Animation.Animate3D.constructor: the configured quality comes from `Configuration` in the engine and is a parameter here.
- Sprites.ModulatedChannel: the float product `c * (opacity / 255.0f)` truncated to a byte is modelled as the exact integer floor of `c * opacity / 255`; the two can differ by float rounding.
- The texture cache and the 2x2 white image: the white texture is a parameter of Sprites.Sprite.SetTexture.
- The director's content scale factor is a constant of each sprite.
- Child nodes that are not sprites, `addChild`/`removeChild` and sorting: a sprite's children are fixed at construction.
- The `Node` transform setters that invoke `SET_DIRTY_RECURSIVELY`: Sprites.Sprite.MarkDirtyRecursively models the macro they share.
- Sprites.Sprite.ResetDefaults: skips the `setAnchorPoint` call of `initWithTexture` (`MGRSprite.cpp:108`). Its `SET_DIRTY_RECURSIVELY` would leave both dirty flags set. `initWithTexture` sets both flags at its end anyway, and a sprite being initialised has no children yet, so the end state is the same.
- Anchor point, GL program state, culling in `draw`, and the disabled `CC_FIX_ARTIFACTS_BY_STRECHING_TEXEL` branches.
- Sprites.Sprite.SetTexture: textures are compared by value; the `id` field stands in for pointer identity.

## Findings

| source | as written | input that shows it | evidently intended | confidence | as-written member | corrected member |
|---|---|---|---|---|---|---|
| cocos2d/cocos/2d/MGRDrawNode.cpp:390-425 | `drawPoly`, and `drawCircle` through it (`MGRDrawNode.cpp:451-455`), appends line vertices but never sets `_dirtyGLLine`, so `onDrawGLLine` does not re-upload them | any `drawPoly` or `drawCircle` call after an upload, with no other line primitive in the same frame | set `_dirtyGLLine = true`, as `drawLine` does | not executed; the line buffer would draw stale GPU data | DrawNodes.DrawNode.DrawPolyUnflagged | DrawNodes.DrawNode.DrawPoly |
| cocos2d/cocos/2d/MGRDrawNode.cpp:499-502 | with an outline, `triangle_count = 3*count - 2` | `count = 1` with a visible border: 3 vertices reserved and counted, 6 written | `count - 2` fill triangles (none below 3 vertices) plus `2*count` stroke triangles | not executed | DrawShapes.OutlinedMonogonOverruns | DrawShapes.PolygonTrianglesCorrect |
| cocos2d/cocos/2d/MGRDrawNode.cpp:499-502 | `triangle_count` goes negative for small polygons | `count = 1` without outline (-3 vertices), or `count = 0` with or without outline (-6) | a count of 0, since nothing is written | not executed | DrawShapes.SmallPolygonCountNegative | DrawShapes.PolygonTrianglesCorrect |

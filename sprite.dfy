/** MGRSprite: a textured quad. The sprite keeps the four corners of its
    quad (position, colour, texture coordinate) in step with its texture
    rectangle, flip flags, texture and colour, and marks itself and the
    sprites below it dirty when its transform changes. */
module Sprites {
  import opened Types

  /** A texture dimension in pixels. */
  type Dim = x: int | x > 0 witness 1

  /** A `Texture2D`, as far as the sprite looks at it. */
  datatype Texture = Texture(id: nat, pixelsWide: Dim, pixelsHigh: Dim, premultipliedAlpha: bool)

  /** `V3F_C4B_T2F`: one corner of the quad. */
  datatype Corner = Corner(vertices: Vec3, colors: Color4B, texCoords: Vec2)

  /** `V3F_C4B_T2F_Quad`: bottom-left, bottom-right, top-left, top-right. */
  datatype Quad = Quad(bl: Corner, br: Corner, tl: Corner, tr: Corner)

  /** The four texture coordinates of a quad, corner by corner. */
  datatype TexQuad = TexQuad(bl: Vec2, br: Vec2, tl: Vec2, tr: Vec2)

  /** The four corner positions of a quad. */
  datatype PosQuad = PosQuad(bl: Vec3, br: Vec3, tl: Vec3, tr: Vec3)

  function TexCoordsOf(q: Quad): TexQuad
  {
    TexQuad(q.bl.texCoords, q.br.texCoords, q.tl.texCoords, q.tr.texCoords)
  }

  function PositionsOf(q: Quad): PosQuad
  {
    PosQuad(q.bl.vertices, q.br.vertices, q.tl.vertices, q.tr.vertices)
  }

  /** All four corners carry colour `c`. */
  predicate Colored(q: Quad, c: Color4B)
  {
    q.bl.colors == c && q.br.colors == c && q.tl.colors == c && q.tr.colors == c
  }

  predicate SameColors(q: Quad, p: Quad)
  {
    q.bl.colors == p.bl.colors && q.br.colors == p.br.colors &&
    q.tl.colors == p.tl.colors && q.tr.colors == p.tr.colors
  }

  /** A quad is determined by its positions, colours and texture
      coordinates. */
  lemma SameParts(q: Quad, p: Quad)
    requires PositionsOf(q) == PositionsOf(p) && SameColors(q, p) && TexCoordsOf(q) == TexCoordsOf(p)
    ensures q == p
  {
    assert q.bl == p.bl && q.br == p.br && q.tl == p.tl && q.tr == p.tr;
  }

  const ZeroCorner := Corner(Vec3(0.0, 0.0, 0.0), Clear4B, Zero2)

  // ---------------------------------------------------------------------
  // Vertex layout

  /** `_offsetPosition`: the trimmed rectangle centred in the untrimmed
      content size. */
  function Offset(content: Size, size: Size): Vec2
  {
    Vec2((content.width - size.width) / 2.0, (content.height - size.height) / 2.0)
  }

  /** The corner positions `setTextureRect` writes: a `size` rectangle at
      the offset, at depth 0, centred in the content. */
  function QuadPositions(content: Size, size: Size): (r: PosQuad)
    ensures r.br.x - r.bl.x == size.width && r.tl.y - r.bl.y == size.height
    ensures r.bl.x + r.tr.x == content.width && r.bl.y + r.tr.y == content.height
    ensures r.bl.x == r.tl.x && r.br.x == r.tr.x && r.bl.y == r.br.y && r.tl.y == r.tr.y
    ensures r.bl.z == 0.0 && r.br.z == 0.0 && r.tl.z == 0.0 && r.tr.z == 0.0
    ensures Vec2(r.bl.x, r.bl.y) == Offset(content, size)
  {
    var o := Offset(content, size);
    var x1 := 0.0 + o.x;
    var y1 := 0.0 + o.y;
    var x2 := x1 + size.width;
    var y2 := y1 + size.height;
    PosQuad(Vec3(x1, y1, 0.0), Vec3(x2, y1, 0.0), Vec3(x1, y2, 0.0), Vec3(x2, y2, 0.0))
  }

  // ---------------------------------------------------------------------
  // Texture coordinates

  /** `CC_RECT_POINTS_TO_PIXELS`: a rectangle in points scaled to pixels. */
  function PixelRect(r: Rect, scale: real): Rect
  {
    Rect(Vec2(r.origin.x * scale, r.origin.y * scale), Size(r.size.width * scale, r.size.height * scale))
  }

  datatype Edges = Edges(left: real, right: real, top: real, bottom: real)

  /** The texture-space edges of a pixel rectangle on `tex`; a rotated
      rectangle is stored turned by a quarter, so its width runs along v. */
  function TexEdges(r: Rect, tex: Texture, rotated: bool): Edges
  {
    var w := tex.pixelsWide as real;
    var h := tex.pixelsHigh as real;
    if rotated then
      Edges(r.origin.x / w, (r.origin.x + r.size.height) / w, r.origin.y / h, (r.origin.y + r.size.width) / h)
    else
      Edges(r.origin.x / w, (r.origin.x + r.size.width) / w, r.origin.y / h, (r.origin.y + r.size.height) / h)
  }

  /** The corner texture coordinates for given edges. Unrotated, the left
      column takes the left edge and the bottom row the bottom edge, unless
      flipped in x or in y. Rotated, the bottom row takes the left edge and
      the left column the top edge; flipping in x then exchanges top and
      bottom and flipping in y exchanges left and right. */
  function TexQuadFor(e: Edges, rotated: bool, flippedX: bool, flippedY: bool): TexQuad
  {
    if rotated then
      var t := if flippedX then e.bottom else e.top;
      var b := if flippedX then e.top else e.bottom;
      var l := if flippedY then e.right else e.left;
      var r := if flippedY then e.left else e.right;
      TexQuad(Vec2(l, t), Vec2(l, b), Vec2(r, t), Vec2(r, b))
    else
      var l := if flippedX then e.right else e.left;
      var r := if flippedX then e.left else e.right;
      var t := if flippedY then e.bottom else e.top;
      var b := if flippedY then e.top else e.bottom;
      TexQuad(Vec2(l, b), Vec2(r, b), Vec2(l, t), Vec2(r, t))
  }

  /** Left and right columns exchanged. */
  function MirrorColumns(q: TexQuad): TexQuad { TexQuad(q.br, q.bl, q.tr, q.tl) }

  /** Bottom and top rows exchanged. */
  function MirrorRows(q: TexQuad): TexQuad { TexQuad(q.tl, q.tr, q.bl, q.br) }

  /** In both layouts, toggling `flippedX` exchanges the left and right
      corners' texture coordinates and toggling `flippedY` the bottom and
      top ones; each mirror undoes itself. */
  lemma FlipsMirrorCorners(e: Edges, rotated: bool, flippedX: bool, flippedY: bool)
    ensures TexQuadFor(e, rotated, !flippedX, flippedY) == MirrorColumns(TexQuadFor(e, rotated, flippedX, flippedY))
    ensures TexQuadFor(e, rotated, flippedX, !flippedY) == MirrorRows(TexQuadFor(e, rotated, flippedX, flippedY))
    ensures MirrorColumns(MirrorColumns(TexQuadFor(e, rotated, flippedX, flippedY))) == TexQuadFor(e, rotated, flippedX, flippedY)
    ensures MirrorRows(MirrorRows(TexQuadFor(e, rotated, flippedX, flippedY))) == TexQuadFor(e, rotated, flippedX, flippedY)
  {
  }

  /** Unflipped, an unrotated rectangle puts (left, bottom) at the
      bottom-left corner and (right, top) at the top-right; a rotated one
      puts (left, top) at the bottom-left and (right, bottom) at the
      top-right. */
  lemma UnflippedLayouts(e: Edges)
    ensures TexQuadFor(e, false, false, false) ==
              TexQuad(Vec2(e.left, e.bottom), Vec2(e.right, e.bottom), Vec2(e.left, e.top), Vec2(e.right, e.top))
    ensures TexQuadFor(e, true, false, false) ==
              TexQuad(Vec2(e.left, e.top), Vec2(e.left, e.bottom), Vec2(e.right, e.top), Vec2(e.right, e.bottom))
  {
  }

  // ---------------------------------------------------------------------
  // Colour

  /** A byte channel scaled by `opacity / 255` and truncated to a byte. */
  function ModulatedChannel(c: Byte, opacity: Byte): (r: Byte)
    ensures r * 255 <= c * opacity < (r + 1) * 255
    ensures r <= c && r <= opacity
    ensures opacity == 255 ==> r == c
    ensures opacity == 0 || c == 0 ==> r == 0
  {
    ProductBounds(c, opacity);
    (c * opacity) / 255
  }

  lemma ProductBounds(c: Byte, o: Byte)
    ensures 0 <= c * o <= 255 * c && c * o <= 255 * o
    ensures o == 255 ==> c * o == 255 * c
    ensures o == 0 || c == 0 ==> c * o == 0
  {
    MulNonneg(255 - o, c);
    MulNonneg(255 - c, o);
    MulNonneg(c, o);
  }

  lemma MulNonneg(a: nat, b: nat)
    ensures 0 <= a * b
    ensures a == 0 || b == 0 ==> a * b == 0
  {
  }

  /** The colour `updateColor` writes to every corner: the displayed colour
      with the displayed opacity as alpha, the colour channels scaled by the
      opacity when opacity modifies RGB. */
  function CornerColor(color: Color3B, opacity: Byte, opacityModifyRGB: bool): (r: Color4B)
    ensures r.a == opacity
    ensures !opacityModifyRGB ==> r == Color4B(color.r, color.g, color.b, opacity)
    ensures opacityModifyRGB ==> r.r <= color.r && r.g <= color.g && r.b <= color.b
    ensures opacityModifyRGB && opacity == 255 ==> r == Color4B(color.r, color.g, color.b, 255)
  {
    if opacityModifyRGB then
      Color4B(ModulatedChannel(color.r, opacity), ModulatedChannel(color.g, opacity),
              ModulatedChannel(color.b, opacity), opacity)
    else Color4B(color.r, color.g, color.b, opacity)
  }

  /** `updateBlendFunc`: premultiplied blending exactly for a texture with
      premultiplied alpha. */
  function BlendFor(texture: Option<Texture>): BlendFunc
  {
    if texture.None? || !texture.value.premultipliedAlpha then AlphaNonPremultiplied else AlphaPremultiplied
  }

  // ---------------------------------------------------------------------
  // The sprite

  class Sprite {
    /** The sprite children, in order (other node kinds are not modelled),
        and every sprite below this one. */
    const children: seq<Sprite>
    ghost const Repr: set<Sprite>
    /** The director's content scale factor (points to pixels). */
    const contentScaleFactor: real

    var quad: Quad
    var rect: Rect
    var rectRotated: bool
    var contentSize: Size
    var offsetPosition: Vec2
    var flippedX: bool
    var flippedY: bool
    var texture: Option<Texture>
    var blendFunc: BlendFunc
    var opacityModifyRGB: bool
    var displayedColor: Color3B
    var displayedOpacity: Byte
    var dirty: bool
    var recursiveDirty: bool

    /** The sprites below form a tree: each child's subtree lies in `Repr`,
        and `Repr` holds nothing else. */
    ghost predicate Valid()
      decreases Repr
    {
      this !in Repr &&
      (forall i :: 0 <= i < |children| ==>
         children[i] in Repr && children[i] !in children[i].Repr && children[i].Repr <= Repr &&
         children[i].Valid()) &&
      (forall s {:trigger Below(s)} :: s in Repr ==> exists i :: 0 <= i < |children| && (s == children[i] || s in children[i].Repr))
    }

    /** `s` is one of the sprites below this one. */
    ghost predicate Below(s: Sprite)
    {
      s in Repr
    }

    /** The texture coordinates of the current rectangle, flip flags and
        texture. */
    function ExpectedTexCoords(): TexQuad
      requires texture.Some?
      reads this`rect, this`texture, this`rectRotated, this`flippedX, this`flippedY
    {
      TexQuadFor(TexEdges(PixelRect(rect, contentScaleFactor), texture.value, rectRotated), rectRotated, flippedX, flippedY)
    }

    /** The quad is what `setTextureRect(rect, rectRotated, contentSize)`
        lays out. */
    predicate LaidOut()
      reads this`offsetPosition, this`contentSize, this`quad
      reads this`rect, this`texture, this`rectRotated, this`flippedX, this`flippedY
    {
      offsetPosition == Offset(contentSize, rect.size) &&
      PositionsOf(quad) == QuadPositions(contentSize, rect.size) &&
      (texture.Some? ==> TexCoordsOf(quad) == ExpectedTexCoords())
    }

    /** Only the fields `LaidOut` reads decide it. */
    twostate lemma LayoutKept()
      requires old(LaidOut())
      requires GeometryUnchanged() && texture == old(texture) && quad == old(quad)
      ensures LaidOut()
    {
    }

    twostate predicate GeometryUnchanged()
      reads this
    {
      rect == old(rect) && rectRotated == old(rectRotated) && contentSize == old(contentSize) &&
      offsetPosition == old(offsetPosition) && flippedX == old(flippedX) && flippedY == old(flippedY)
    }

    twostate predicate AppearanceUnchanged()
      reads this
    {
      texture == old(texture) && blendFunc == old(blendFunc) && opacityModifyRGB == old(opacityModifyRGB) &&
      displayedColor == old(displayedColor) && displayedOpacity == old(displayedOpacity)
    }

    twostate predicate FlagsUnchanged()
      reads this
    {
      dirty == old(dirty) && recursiveDirty == old(recursiveDirty)
    }

    /** A sprite made by `initWithTexture(texture, rect, rotated)`, over the
        given child sprites: white corners, no flips, premultiplied blending
        until the texture says otherwise (a missing texture is replaced by
        the shared white one), the quad laid out for `rect`, and both dirty
        flags set. */
    constructor (tex: Option<Texture>, white: Texture, r: Rect, rotated: bool, kids: seq<Sprite>, scale: real)
      requires forall i :: 0 <= i < |kids| ==> kids[i].Valid()
      ensures Valid() && children == kids && contentScaleFactor == scale
      ensures texture == Some(if tex.Some? then tex.value else white)
      ensures blendFunc == BlendFor(texture) && opacityModifyRGB == (blendFunc == AlphaPremultiplied)
      ensures rect == r && rectRotated == rotated && contentSize == r.size && LaidOut()
      ensures !flippedX && !flippedY
      ensures Colored(quad, White4B)
      ensures dirty && recursiveDirty
    {
      children := kids;
      Repr := set i, s | 0 <= i < |kids| && (s == kids[i] || s in kids[i].Repr) :: s;
      contentScaleFactor := scale;
      displayedColor := Color3B(255, 255, 255);
      displayedOpacity := 255;
      texture := None;
      new;
      assert forall i :: 0 <= i < |kids| ==> kids[i] in Repr && kids[i].Repr <= Repr;
      InitWithTexture(tex, white, r, rotated);
    }

    /** The body of `initWithTexture(texture, rect, rotated)` once the node
        base is set up. */
    method InitWithTexture(tex: Option<Texture>, white: Texture, r: Rect, rotated: bool)
      requires texture.None? && displayedColor == Color3B(255, 255, 255) && displayedOpacity == 255
      modifies this
      ensures texture == Some(if tex.Some? then tex.value else white)
      ensures blendFunc == BlendFor(texture) && opacityModifyRGB == (blendFunc == AlphaPremultiplied)
      ensures rect == r && rectRotated == rotated && contentSize == r.size && LaidOut()
      ensures !flippedX && !flippedY
      ensures Colored(quad, White4B)
      ensures dirty && recursiveDirty
      ensures displayedColor == old(displayedColor) && displayedOpacity == old(displayedOpacity)
    {
      ResetDefaults();
      SetTexture(tex, white);
      assert Colored(quad, White4B);
      SetTextureRect(r, rotated, r.size);
      label laidOut:
      recursiveDirty := true;
      dirty := true;
      LayoutKept@laidOut();
    }

    /** The defaults `initWithTexture` sets before the texture: clean
        flags, premultiplied blending, no flips, no offset, and a zeroed
        quad with white corners. */
    method ResetDefaults()
      modifies this
      ensures !dirty && !recursiveDirty && opacityModifyRGB && blendFunc == AlphaPremultiplied
      ensures !flippedX && !flippedY && offsetPosition == Zero2
      ensures Colored(quad, White4B)
      ensures texture == old(texture) && displayedColor == old(displayedColor) && displayedOpacity == old(displayedOpacity)
    {
      recursiveDirty := false;
      dirty := false;
      opacityModifyRGB := true;
      blendFunc := AlphaPremultiplied;
      flippedX := false;
      flippedY := false;
      offsetPosition := Zero2;
      quad := Quad(ZeroCorner.(colors := White4B), ZeroCorner.(colors := White4B),
                   ZeroCorner.(colors := White4B), ZeroCorner.(colors := White4B));
    }

    /** `setTexture`: a missing texture is replaced by the shared white
        one; blending is recomputed only when the texture changes. */
    method SetTexture(tex: Option<Texture>, white: Texture)
      modifies this
      ensures texture == Some(if tex.Some? then tex.value else white)
      ensures old(texture) == texture ==> quad == old(quad) && AppearanceUnchanged()
      ensures old(texture) != texture ==>
                blendFunc == BlendFor(texture) && opacityModifyRGB == (blendFunc == AlphaPremultiplied) &&
                (opacityModifyRGB == old(opacityModifyRGB) ==> quad == old(quad)) &&
                (opacityModifyRGB != old(opacityModifyRGB) ==>
                   Colored(quad, CornerColor(displayedColor, displayedOpacity, opacityModifyRGB)) &&
                   PositionsOf(quad) == PositionsOf(old(quad)) && TexCoordsOf(quad) == TexCoordsOf(old(quad)))
      ensures displayedColor == old(displayedColor) && displayedOpacity == old(displayedOpacity)
      ensures GeometryUnchanged() && FlagsUnchanged()
    {
      var t := if tex.Some? then tex.value else white;
      if texture != Some(t) {
        texture := Some(t);
        UpdateBlendFunc();
      }
    }

    /** `updateBlendFunc`: the blend mode and whether opacity modifies RGB
        both follow the texture's premultiplied alpha. */
    method UpdateBlendFunc()
      modifies this
      ensures blendFunc == BlendFor(texture)
      ensures opacityModifyRGB == (blendFunc == AlphaPremultiplied)
      ensures opacityModifyRGB == old(opacityModifyRGB) ==> quad == old(quad)
      ensures opacityModifyRGB != old(opacityModifyRGB) ==>
                Colored(quad, CornerColor(displayedColor, displayedOpacity, opacityModifyRGB)) &&
                PositionsOf(quad) == PositionsOf(old(quad)) && TexCoordsOf(quad) == TexCoordsOf(old(quad))
      ensures texture == old(texture) && displayedColor == old(displayedColor) && displayedOpacity == old(displayedOpacity)
      ensures GeometryUnchanged() && FlagsUnchanged()
    {
      if texture.None? || !texture.value.premultipliedAlpha {
        blendFunc := AlphaNonPremultiplied;
        SetOpacityModifyRGB(false);
      } else {
        blendFunc := AlphaPremultiplied;
        SetOpacityModifyRGB(true);
      }
    }

    /** `setOpacityModifyRGB`: the corner colours are recomputed only when
        the setting changes. */
    method SetOpacityModifyRGB(m: bool)
      modifies this
      ensures opacityModifyRGB == m
      ensures m == old(opacityModifyRGB) ==> quad == old(quad)
      ensures m != old(opacityModifyRGB) ==>
                Colored(quad, CornerColor(displayedColor, displayedOpacity, m)) &&
                PositionsOf(quad) == PositionsOf(old(quad)) && TexCoordsOf(quad) == TexCoordsOf(old(quad))
      ensures texture == old(texture) && blendFunc == old(blendFunc)
      ensures displayedColor == old(displayedColor) && displayedOpacity == old(displayedOpacity)
      ensures GeometryUnchanged() && FlagsUnchanged()
    {
      if opacityModifyRGB != m {
        opacityModifyRGB := m;
        UpdateColor();
      }
    }

    /** `updateColor`: one colour for all four corners; positions and
        texture coordinates stay. */
    method UpdateColor()
      modifies this
      ensures Colored(quad, CornerColor(displayedColor, displayedOpacity, opacityModifyRGB))
      ensures PositionsOf(quad) == PositionsOf(old(quad)) && TexCoordsOf(quad) == TexCoordsOf(old(quad))
      ensures GeometryUnchanged() && AppearanceUnchanged() && FlagsUnchanged()
    {
      var color4 := Color4B(displayedColor.r, displayedColor.g, displayedColor.b, displayedOpacity);
      if opacityModifyRGB {
        color4 := color4.(r := ModulatedChannel(color4.r, displayedOpacity));
        color4 := color4.(g := ModulatedChannel(color4.g, displayedOpacity));
        color4 := color4.(b := ModulatedChannel(color4.b, displayedOpacity));
      }
      quad := quad.(bl := quad.bl.(colors := color4));
      quad := quad.(br := quad.br.(colors := color4));
      quad := quad.(tl := quad.tl.(colors := color4));
      quad := quad.(tr := quad.tr.(colors := color4));
    }

    /** `setTextureRect`: records the rectangle and the untrimmed size, sets
        the texture coordinates, and lays the corners out around the
        centring offset. */
    method SetTextureRect(r: Rect, rotated: bool, untrimmedSize: Size)
      modifies this
      ensures rect == r && rectRotated == rotated && contentSize == untrimmedSize
      ensures LaidOut()
      ensures texture.None? ==> TexCoordsOf(quad) == TexCoordsOf(old(quad))
      ensures SameColors(quad, old(quad))
      ensures flippedX == old(flippedX) && flippedY == old(flippedY)
      ensures AppearanceUnchanged() && FlagsUnchanged()
    {
      rectRotated := rotated;
      contentSize := untrimmedSize;
      rect := r;
      SetTextureCoords(r);

      offsetPosition := Offset(contentSize, rect.size);
      var corners := QuadPositions(contentSize, rect.size);
      quad := quad.(bl := quad.bl.(vertices := corners.bl));
      quad := quad.(br := quad.br.(vertices := corners.br));
      quad := quad.(tl := quad.tl.(vertices := corners.tl));
      quad := quad.(tr := quad.tr.(vertices := corners.tr));
    }

    /** `setTextureCoords`: the corner texture coordinates of `r` on the
        current texture, with the flips applied by swapping edges; nothing
        changes without a texture. */
    method SetTextureCoords(r: Rect)
      modifies this
      ensures texture.None? ==> quad == old(quad)
      ensures texture.Some? ==>
                TexCoordsOf(quad) == TexQuadFor(TexEdges(PixelRect(r, contentScaleFactor), texture.value, rectRotated),
                                                 rectRotated, flippedX, flippedY)
      ensures PositionsOf(quad) == PositionsOf(old(quad)) && SameColors(quad, old(quad))
      ensures GeometryUnchanged() && AppearanceUnchanged() && FlagsUnchanged()
    {
      var px := PixelRect(r, contentScaleFactor);
      if texture.None? {
        return;
      }
      var tex := texture.value;
      var atlasWidth := tex.pixelsWide as real;
      var atlasHeight := tex.pixelsHigh as real;
      var left, right, top, bottom;
      if rectRotated {
        left := px.origin.x / atlasWidth;
        right := (px.origin.x + px.size.height) / atlasWidth;
        top := px.origin.y / atlasHeight;
        bottom := (px.origin.y + px.size.width) / atlasHeight;
        if flippedX {
          top, bottom := bottom, top;
        }
        if flippedY {
          left, right := right, left;
        }
        quad := quad.(bl := quad.bl.(texCoords := Vec2(left, top)));
        quad := quad.(br := quad.br.(texCoords := Vec2(left, bottom)));
        quad := quad.(tl := quad.tl.(texCoords := Vec2(right, top)));
        quad := quad.(tr := quad.tr.(texCoords := Vec2(right, bottom)));
      } else {
        left := px.origin.x / atlasWidth;
        right := (px.origin.x + px.size.width) / atlasWidth;
        top := px.origin.y / atlasHeight;
        bottom := (px.origin.y + px.size.height) / atlasHeight;
        if flippedX {
          left, right := right, left;
        }
        if flippedY {
          top, bottom := bottom, top;
        }
        quad := quad.(bl := quad.bl.(texCoords := Vec2(left, bottom)));
        quad := quad.(br := quad.br.(texCoords := Vec2(right, bottom)));
        quad := quad.(tl := quad.tl.(texCoords := Vec2(left, top)));
        quad := quad.(tr := quad.tr.(texCoords := Vec2(right, top)));
      }
    }

    /** `setFlippedX`: a change re-lays the quad, which on a laid-out quad
        exchanges the left and right texture coordinates and nothing else;
        setting the current value changes nothing. */
    method SetFlippedX(v: bool)
      modifies this
      ensures flippedX == v
      ensures v == old(flippedX) ==> quad == old(quad) && GeometryUnchanged()
      ensures v != old(flippedX) ==> LaidOut() && SameColors(quad, old(quad))
      ensures texture.None? ==> TexCoordsOf(quad) == TexCoordsOf(old(quad))
      ensures v != old(flippedX) && old(LaidOut()) ==>
                PositionsOf(quad) == PositionsOf(old(quad)) &&
                (texture.Some? ==> TexCoordsOf(quad) == MirrorColumns(TexCoordsOf(old(quad))))
      ensures rect == old(rect) && rectRotated == old(rectRotated) && contentSize == old(contentSize)
      ensures offsetPosition == old(offsetPosition) || old(!LaidOut())
      ensures flippedY == old(flippedY) && AppearanceUnchanged() && FlagsUnchanged()
    {
      if flippedX != v {
        if texture.Some? {
          FlipsMirrorCorners(TexEdges(PixelRect(rect, contentScaleFactor), texture.value, rectRotated),
                             rectRotated, flippedX, flippedY);
        }
        flippedX := v;
        SetTextureRect(rect, rectRotated, contentSize);
      }
    }

    /** `setFlippedY`: as `setFlippedX`, exchanging the bottom and top
        texture coordinates. */
    method SetFlippedY(v: bool)
      modifies this
      ensures flippedY == v
      ensures v == old(flippedY) ==> quad == old(quad) && GeometryUnchanged()
      ensures v != old(flippedY) ==> LaidOut() && SameColors(quad, old(quad))
      ensures texture.None? ==> TexCoordsOf(quad) == TexCoordsOf(old(quad))
      ensures v != old(flippedY) && old(LaidOut()) ==>
                PositionsOf(quad) == PositionsOf(old(quad)) &&
                (texture.Some? ==> TexCoordsOf(quad) == MirrorRows(TexCoordsOf(old(quad))))
      ensures rect == old(rect) && rectRotated == old(rectRotated) && contentSize == old(contentSize)
      ensures offsetPosition == old(offsetPosition) || old(!LaidOut())
      ensures flippedX == old(flippedX) && AppearanceUnchanged() && FlagsUnchanged()
    {
      if flippedY != v {
        if texture.Some? {
          FlipsMirrorCorners(TexEdges(PixelRect(rect, contentScaleFactor), texture.value, rectRotated),
                             rectRotated, flippedX, flippedY);
        }
        flippedY := v;
        SetTextureRect(rect, rectRotated, contentSize);
      }
    }

    /** Toggling `flippedX` twice on a laid-out quad restores it. */
    method ToggleFlippedXTwice()
      requires LaidOut()
      modifies this
      ensures quad == old(quad) && flippedX == old(flippedX)
      ensures GeometryUnchanged() && AppearanceUnchanged() && FlagsUnchanged()
    {
      ghost var q0 := quad;
      SetFlippedX(!flippedX);
      SetFlippedX(!flippedX);
      SameParts(quad, q0);
    }

    /** Toggling `flippedY` twice on a laid-out quad restores it. */
    method ToggleFlippedYTwice()
      requires LaidOut()
      modifies this
      ensures quad == old(quad) && flippedY == old(flippedY)
      ensures GeometryUnchanged() && AppearanceUnchanged() && FlagsUnchanged()
    {
      ghost var q0 := quad;
      SetFlippedY(!flippedY);
      SetFlippedY(!flippedY);
      SameParts(quad, q0);
    }

    /** A child of a valid sprite is valid, lies in its footprint and has a
        strictly smaller one. */
    lemma ChildInRepr(i: nat)
      requires Valid() && i < |children|
      ensures children[i] in Repr && children[i].Repr < Repr && children[i].Valid()
    {
    }

    /** Every sprite below a valid sprite is one of its children or lies
        below one. */
    lemma ReprCovered(marked: set<Sprite>)
      requires Valid()
      requires forall j :: 0 <= j < |children| ==> children[j] in marked && children[j].Repr <= marked
      ensures Repr <= marked
    {
      forall s | s in Repr
        ensures s in marked
      {
        assert Below(s);
        var j :| 0 <= j < |children| && (s == children[j] || s in children[j].Repr);
      }
    }

    /** `setDirtyRecursively(v)`: this sprite's flags become `v` and every
        sprite below it is marked dirty; only the two flags change. */
    method SetDirtyRecursively(v: bool)
      requires Valid()
      modifies this`dirty, this`recursiveDirty, Repr`dirty, Repr`recursiveDirty
      decreases Repr
      ensures recursiveDirty == v && dirty == v
      ensures forall s :: s in Repr ==> s.dirty && s.recursiveDirty
    {
      recursiveDirty := v;
      dirty := v;
      ghost var marked: set<Sprite> := {};
      var i := 0;
      while i < |children|
        invariant 0 <= i <= |children|
        invariant recursiveDirty == v && dirty == v
        invariant forall j :: 0 <= j < i ==> children[j] in marked && children[j].Repr <= marked
        invariant forall s :: s in marked ==> s.dirty && s.recursiveDirty
      {
        var child := children[i];
        ChildInRepr(i);
        child.SetDirtyRecursively(true);
        marked := marked + {child} + child.Repr;
        i := i + 1;
      }
      ReprCovered(marked);
    }

    /** `SET_DIRTY_RECURSIVELY`, run by the transform setters: only when
        not already recursively dirty, marks this sprite and everything
        below it dirty. */
    method MarkDirtyRecursively()
      requires Valid()
      modifies this`dirty, this`recursiveDirty, Repr`dirty, Repr`recursiveDirty
      ensures recursiveDirty
      ensures old(recursiveDirty) ==> dirty == old(dirty) && forall s :: s in Repr ==> s.FlagsUnchanged()
      ensures !old(recursiveDirty) ==> dirty && forall s :: s in Repr ==> s.dirty && s.recursiveDirty
    {
      if !recursiveDirty {
        recursiveDirty := true;
        dirty := true;
        if |children| > 0 {
          SetDirtyRecursively(true);
        } else {
          ReprCovered({});
        }
      }
    }
  }
}

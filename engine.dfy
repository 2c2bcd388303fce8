/** EngineSystemManager (src/Engine/Engine.cpp): the registry of game objects
    and component handles, the lazily rebuilt stream buffer, and the
    per-frame pass that walks each active object's parent chain, lets a
    rigid body override the walked transform, and copies the result into
    the mesh renderer, actor, text layout, camera and light. Also the glyph
    layout of text meshes (AddMeshText, AddMeshSubSprite). */
module Engine {
  import opened Common
  import opened Components
  import opened GameObjects

  // ---------------------------------------------------------------------
  // Text anchoring

  /** C++ integer division by two, which truncates toward zero. */
  function Half(n: int): (h: int)
    ensures n >= 0 ==> 0 <= n - 2 * h <= 1
    ensures n < 0 ==> 0 <= 2 * h - n <= 1
  {
    if n >= 0 then n / 2 else -((-n) / 2)
  }

  /** The horizontal screen offset of a text element whose string has the
      given length: right-anchored text ends canvas.x font sizes from the
      right edge of the viewport; otherwise it starts one font size plus
      canvas.x font sizes from the left edge, or canvas.x font sizes from
      the middle when centred. */
  function AnchorZ(viewportW: int, size: nat, canvas: Canvas, length: nat): int
  {
    if canvas.anchorRight then viewportW + size * canvas.x - length * size
    else if canvas.anchorCenterHorz then Half(viewportW) + canvas.x * size
    else canvas.x * size + size
  }

  /** The vertical screen offset of a text element: measured from the top of
      the viewport when anchored top, from its middle when centred
      vertically, and from the bottom of the display otherwise. */
  function AnchorY(displayH: int, viewportH: int, size: nat, canvas: Canvas): int
  {
    if canvas.anchorTop then displayH - viewportH + (size * size) / 2 + size * canvas.y
    else if canvas.anchorCenterVert then
      displayH - Half(viewportH) + (size * size) / 2 + (size * canvas.y - size * 2)
    else displayH - size - size * -canvas.y
  }

  /** Right-anchored text ends exactly canvas.x font sizes from the right edge,
      whatever its length: its start moves left by one font size per character.
      Five characters of size 10 at canvas column 0 of an 800-pixel viewport
      start at 750. */
  lemma AnchorZRightEdge(viewportW: int, size: nat, canvas: Canvas, length: nat)
    requires canvas.anchorRight
    ensures AnchorZ(viewportW, size, canvas, length) + length * size == viewportW + size * canvas.x
    ensures AnchorZ(viewportW, size, canvas, length + 1) == AnchorZ(viewportW, size, canvas, length) - size
  {
  }

  /** In every horizontal mode one canvas unit is one font size. */
  lemma {:induction false} AnchorZShift(viewportW: int, size: nat, canvas: Canvas, length: nat)
    ensures AnchorZ(viewportW, size, canvas.(x := canvas.x + 1), length) == AnchorZ(viewportW, size, canvas, length) + size
  {
    assert size * (canvas.x + 1) == size * canvas.x + size;
    assert (canvas.x + 1) * size == canvas.x * size + size;
  }

  /** In every vertical mode one canvas unit is one font size. */
  lemma {:induction false} AnchorYShift(displayH: int, viewportH: int, size: nat, canvas: Canvas)
    ensures AnchorY(displayH, viewportH, size, canvas.(y := canvas.y + 1)) == AnchorY(displayH, viewportH, size, canvas) + size
  {
    assert size * (canvas.y + 1) == size * canvas.y + size;
    assert size * -(canvas.y + 1) == size * -canvas.y - size;
  }


  // ---------------------------------------------------------------------
  // Camera mouse look

  const YawStep: real := 0.109655
  const PitchLimit: real := 0.0274

  /** The two yaw lines as written: both compare against +YawStep, so the
      angle is shifted by -YawStep, 0 or +YawStep, and any angle at or above
      zero comes out at YawStep or more. */
  function YawLimit(x: real): (r: real)
    ensures x < YawStep ==> r == x + YawStep
    ensures YawStep <= x <= 2.0 * YawStep ==> r == x
    ensures x > 2.0 * YawStep ==> r == x - YawStep
    ensures x >= 0.0 ==> r >= YawStep
  {
    var shifted := if x >= YawStep then x - YawStep else x;
    if shifted <= YawStep then shifted + YawStep else shifted
  }

  /** The pitch clamp: the result lies in [-PitchLimit, PitchLimit] and an
      angle already inside is kept. */
  function PitchClamp(y: real): (r: real)
    ensures -PitchLimit <= r <= PitchLimit
    ensures -PitchLimit <= y <= PitchLimit ==> r == y
    ensures y > PitchLimit ==> r == PitchLimit
    ensures y < -PitchLimit ==> r == -PitchLimit
  {
    var upper := if y > PitchLimit then PitchLimit else y;
    if upper < -PitchLimit then -PitchLimit else upper
  }

  datatype Point = Point(x: int, y: int)

  /** The look angle after one mouse-look step: the cursor's offset from the
      display centre, scaled by the sensitivities and by 0.01, is added to
      yaw and taken from pitch, then yaw is limited and pitch clamped. */
  function LookUpdate(look: Vec2, cursor: Point, center: Point, sensitivityYaw: real, sensitivityPitch: real): (r: Vec2)
    ensures -PitchLimit <= r.y <= PitchLimit
  {
    var diffX := (cursor.x - center.x) as real * sensitivityYaw;
    var diffY := (cursor.y - center.y) as real * sensitivityPitch;
    Vec2(YawLimit(look.x + diffX * 0.01), PitchClamp(look.y - diffY * 0.01))
  }

  /** With the cursor resting on the centre, a pitch inside the limits is kept. */
  lemma LookAtCentre(look: Vec2, center: Point, sensitivityYaw: real, sensitivityPitch: real)
    requires -PitchLimit <= look.y <= PitchLimit
    ensures LookUpdate(look, center, center, sensitivityYaw, sensitivityPitch).y == look.y
  {
  }

  // ---------------------------------------------------------------------
  // Glyph atlas

  datatype Cell = Cell(column: int, row: int)

  /** Columns per atlas row: a column index wraps once it exceeds mapWidth. */
  function GridWidth(mapWidth: int): (w: nat)
    ensures w >= 1
  {
    if mapWidth >= 0 then mapWidth + 1 else 1
  }

  /** The last row a glyph may sit in. */
  function MaxRow(mapHeight: int): nat
  {
    if mapHeight >= 0 then mapHeight else 0
  }

  /** The atlas cell of glyph index, or None when the index lies past the
      last row (indices at or below zero select the first cell). */
  function CellOf(index: int, mapWidth: int, mapHeight: int): Option<Cell>
  {
    var w := GridWidth(mapWidth);
    if index <= 0 then Some(Cell(0, 0))
    else if index / w > MaxRow(mapHeight) then None
    else Some(Cell(index % w, index / w))
  }

  /** Every cell handed out lies inside the grid, and it is the cell of
      exactly that index: row * width + column gives the index back. */
  lemma CellOfBounds(index: int, mapWidth: int, mapHeight: int)
    requires CellOf(index, mapWidth, mapHeight).Some?
    ensures var c := CellOf(index, mapWidth, mapHeight).value;
            0 <= c.column < GridWidth(mapWidth) && 0 <= c.row <= MaxRow(mapHeight) &&
            (index >= 0 ==> c.row * GridWidth(mapWidth) + c.column == index)
  {
  }

  /** The atlas holds exactly GridWidth * (MaxRow + 1) glyphs. */
  lemma {:induction false} CellOfCapacity(index: int, mapWidth: int, mapHeight: int)
    ensures CellOf(index, mapWidth, mapHeight).None? <==>
            index >= GridWidth(mapWidth) * (MaxRow(mapHeight) + 1)
  {
    var w := GridWidth(mapWidth);
    var h := MaxRow(mapHeight) + 1;
    if index > 0 {
      DivBound(index, w, h);
    }
  }

  lemma {:induction false} DivBound(n: nat, w: nat, h: nat)
    requires w >= 1
    ensures n / w >= h <==> n >= w * h
  {
    var q, r := n / w, n % w;
    assert n == w * q + r && 0 <= r < w;
    if q >= h {
      assert w * q >= w * h by { MulMono(w, h, q); }
    } else {
      assert w * q <= w * (h - 1) by { MulMono(w, q, h - 1); }
    }
  }

  lemma {:induction false} MulMono(w: nat, a: int, b: int)
    requires a <= b
    ensures w * a <= w * b
  {
    assert w * b - w * a == w * (b - a);
  }

  /** Two glyph indices at or above zero that get a cell get the same cell
      only when they are equal. */
  lemma CellOfInjective(i: int, j: int, mapWidth: int, mapHeight: int)
    requires i >= 0 && j >= 0
    requires CellOf(i, mapWidth, mapHeight).Some? && CellOf(i, mapWidth, mapHeight) == CellOf(j, mapWidth, mapHeight)
    ensures i == j
  {
    CellOfBounds(i, mapWidth, mapHeight);
    CellOfBounds(j, mapWidth, mapHeight);
  }

  lemma {:induction false} DivModUnique(n: int, w: int, q: int, r: int)
    requires w >= 1 && n == w * q + r && 0 <= r < w
    ensures n / w == q && n % w == r
  {
    var q0, r0 := n / w, n % w;
    assert n == w * q0 + r0 && 0 <= r0 < w;
    if q0 > q {
      MulMono(w, q + 1, q0);
    } else if q0 < q {
      MulMono(w, q0 + 1, q);
    }
  }

  lemma {:induction false} StepDivMod(i: nat, w: nat)
    requires w >= 1
    ensures i % w + 1 < w ==> (i + 1) % w == i % w + 1 && (i + 1) / w == i / w
    ensures i % w + 1 == w ==> (i + 1) % w == 0 && (i + 1) / w == i / w + 1
  {
    var q, r := i / w, i % w;
    assert i == w * q + r;
    if r + 1 < w {
      DivModUnique(i + 1, w, q, r + 1);
    } else if r + 1 == w {
      assert i + 1 == w * (q + 1) + 0;
      DivModUnique(i + 1, w, q + 1, 0);
    }
  }

  /** The sub-sprite walk of AddMeshSubSprite: index steps through the grid,
      wrapping the column past mapWidth and giving up when the row passes
      mapHeight. */
  method AtlasCell(index: int, mapWidth: int, mapHeight: int) returns (cell: Option<Cell>)
    ensures cell == CellOf(index, mapWidth, mapHeight)
  {
    ghost var w := GridWidth(mapWidth);
    var subWidth, subHeight := 0, 0;
    var i := 0;
    while i < index
      invariant 0 <= i && (index <= 0 ==> i == 0) && (index > 0 ==> i <= index)
      invariant subWidth == i % w && subHeight == i / w
      invariant i / w <= MaxRow(mapHeight)
    {
      StepDivMod(i, w);
      subWidth := subWidth + 1;
      if subWidth > mapWidth {
        subWidth := 0;
        subHeight := subHeight + 1;
        if subHeight > mapHeight {
          assert (i + 1) / w > MaxRow(mapHeight);
          DivMono(i + 1, index, w);
          return None;
        }
      }
      i := i + 1;
    }
    if index <= 0 {
      return Some(Cell(0, 0));
    }
    return Some(Cell(subWidth, subHeight));
  }

  lemma {:induction false} DivMono(a: nat, b: nat, w: nat)
    requires w >= 1 && a <= b
    ensures a / w <= b / w
  {
    var qa, qb := a / w, b / w;
    assert a == w * qa + a % w && b == w * qb + b % w;
    if qa > qb {
      MulMono(w, qb + 1, qa);
      assert false;
    }
  }

  /** A character, standing for one byte of the string, as the signed
      8-bit value that indexes the atlas. */
  function CharCode(ch: char): (code: int)
    ensures -128 <= code < 128
    ensures 0 <= ch as int < 128 ==> code == ch as int
  {
    var b := (ch as int) % 256;
    if b < 128 then b else b - 256
  }

  /** What AddMeshSubSprite reads from the object's Text component. */
  datatype Glyphs = Glyphs(sprite: SpriteAtlas, spacingWidth: real, spacingHeight: real)

  function GlyphsOf(t: Text?): Option<Glyphs>
    reads if t == null then {} else {t}
  {
    if t == null then None else Some(Glyphs(t.sprite, t.width, t.height))
  }

  /** The quad added for one glyph: none without a Text component or when
      the index lies past the atlas, otherwise one plain at
      (yPos * spacingHeight, 0, -(xPos * spacingWidth)) showing the glyph's cell. */
  function GlyphQuad(glyphs: Option<Glyphs>, xPos: real, yPos: real, scaleWidth: real, scaleHeight: real,
                     index: int, color: Color): seq<Quad>
  {
    match glyphs
    case None => []
    case Some(gl) =>
      match CellOf(index, gl.sprite.width, gl.sprite.height)
      case None => []
      case Some(cell) =>
        [Quad(yPos * gl.spacingHeight, 0.0, -(xPos * gl.spacingWidth), scaleWidth, scaleHeight, color,
              gl.sprite.subSpriteWidth, gl.sprite.subSpriteHeight, gl.sprite.subSpriteX, gl.sprite.subSpriteY,
              cell.column, cell.row)]
  }

  /** The quads of a whole string: character i at xPos + i, in order. */
  function TextQuads(glyphs: Option<Glyphs>, xPos: real, yPos: real, scaleWidth: real, scaleHeight: real,
                     text: seq<char>, color: Color): seq<Quad>
  {
    if text == [] then []
    else TextQuads(glyphs, xPos, yPos, scaleWidth, scaleHeight, text[..|text| - 1], color) +
         GlyphQuad(glyphs, xPos + (|text| - 1) as real, yPos, scaleWidth, scaleHeight, CharCode(text[|text| - 1]), color)
  }

  /** A string never yields more quads than characters, one per character
      when every glyph fits the atlas, and every quad shows a cell inside
      the grid. */
  lemma {:induction false} TextQuadsShape(glyphs: Option<Glyphs>, xPos: real, yPos: real, scaleWidth: real,
                                          scaleHeight: real, text: seq<char>, color: Color)
    ensures |TextQuads(glyphs, xPos, yPos, scaleWidth, scaleHeight, text, color)| <= |text|
    ensures glyphs.Some? && (forall i | 0 <= i < |text| ::
              CellOf(CharCode(text[i]), glyphs.value.sprite.width, glyphs.value.sprite.height).Some?) ==>
            |TextQuads(glyphs, xPos, yPos, scaleWidth, scaleHeight, text, color)| == |text|
    ensures glyphs.Some? ==>
            forall q | q in TextQuads(glyphs, xPos, yPos, scaleWidth, scaleHeight, text, color) ::
              0 <= q.column < GridWidth(glyphs.value.sprite.width) && 0 <= q.row <= MaxRow(glyphs.value.sprite.height)
  {
    if text != [] {
      var init := text[..|text| - 1];
      TextQuadsShape(glyphs, xPos, yPos, scaleWidth, scaleHeight, init, color);
      if glyphs.Some? {
        var gl := glyphs.value;
        var code := CharCode(text[|text| - 1]);
        if CellOf(code, gl.sprite.width, gl.sprite.height).Some? {
          CellOfBounds(code, gl.sprite.width, gl.sprite.height);
        }
        assert forall i | 0 <= i < |init| :: init[i] == text[i];
      }
    }
  }

  /** Adds the quad of one glyph to the mesh of the object's mesh renderer;
      does nothing when that renderer has no mesh, when the object has no
      Text component, or when the index lies past the atlas. */
  method AddMeshSubSprite(g: GameObject, xPos: real, yPos: real, scaleWidth: real, scaleHeight: real,
                          index: int, meshColor: Color)
    requires g.meshRendererCache != null
    modifies MeshSet(g.meshRendererCache.mesh)`subMeshes
    ensures g.meshRendererCache.mesh != null ==>
              g.meshRendererCache.mesh.subMeshes ==
              old(g.meshRendererCache.mesh.subMeshes) +
              GlyphQuad(GlyphsOf(g.textCache), xPos, yPos, scaleWidth, scaleHeight, index, meshColor)
  {
    var meshPtr := g.meshRendererCache.mesh;
    if meshPtr == null {
      return;
    }
    var textPtr := g.textCache;
    if textPtr == null {
      return;
    }
    assert GlyphsOf(g.textCache) == Some(Glyphs(textPtr.sprite, textPtr.width, textPtr.height));
    var cell := AtlasCell(index, textPtr.sprite.width, textPtr.sprite.height);
    if cell.None? {
      return;
    }
    var quad := Quad(yPos * textPtr.height, 0.0, -(xPos * textPtr.width), scaleWidth, scaleHeight, meshColor,
                     textPtr.sprite.subSpriteWidth, textPtr.sprite.subSpriteHeight,
                     textPtr.sprite.subSpriteX, textPtr.sprite.subSpriteY,
                     cell.value.column, cell.value.row);
    var gl := Glyphs(textPtr.sprite, textPtr.width, textPtr.height);
    assert GlyphsOf(g.textCache) == Some(gl);
    assert CellOf(index, gl.sprite.width, gl.sprite.height) == Some(cell.value);
    ghost var r := GlyphQuad(Some(gl), xPos, yPos, scaleWidth, scaleHeight, index, meshColor);
    assert |r| == 1;
    assert r[0].x == quad.x;
    assert r[0].z == quad.z;
    assert r[0].column == quad.column;
    assert r[0].color == quad.color;
    assert r[0].spriteWidth == quad.spriteWidth;
    assert r[0] == quad;
    assert GlyphQuad(GlyphsOf(g.textCache), xPos, yPos, scaleWidth, scaleHeight, index, meshColor) == [quad];
    meshPtr.AddPlain(quad);
  }

  /** Adds one glyph quad per character, character i at xPos + i, then
      uploads the mesh; does nothing when the renderer has no mesh. */
  method AddMeshText(g: GameObject, xPos: real, yPos: real, scaleWidth: real, scaleHeight: real,
                     text: seq<char>, textColor: Color)
    requires g.meshRendererCache != null
    modifies MeshSet(g.meshRendererCache.mesh)`subMeshes, MeshSet(g.meshRendererCache.mesh)`uploads
    ensures g.meshRendererCache.mesh != null ==>
              g.meshRendererCache.mesh.subMeshes ==
                old(g.meshRendererCache.mesh.subMeshes) +
                TextQuads(GlyphsOf(g.textCache), xPos, yPos, scaleWidth, scaleHeight, text, textColor) &&
              g.meshRendererCache.mesh.uploads == old(g.meshRendererCache.mesh.uploads) + 1
  {
    var meshPtr := g.meshRendererCache.mesh;
    if meshPtr == null {
      return;
    }
    var i := 0;
    while i < |text|
      invariant 0 <= i <= |text|
      invariant meshPtr.subMeshes ==
                  old(meshPtr.subMeshes) + TextQuads(GlyphsOf(g.textCache), xPos, yPos, scaleWidth, scaleHeight, text[..i], textColor)
      invariant meshPtr.uploads == old(meshPtr.uploads)
    {
      AddMeshSubSprite(g, xPos + i as real, yPos, scaleWidth, scaleHeight, CharCode(text[i]), textColor);
      assert text[..i + 1][..i] == text[..i];
      i := i + 1;
    }
    assert text[..i] == text;
    meshPtr.UploadToGPU();
  }

  // ---------------------------------------------------------------------
  // Parent chains

  /** chain lists the ancestors reached from p by following parent links,
      nearest first, and the walk ends at null. */
  ghost predicate IsChain(p: GameObject?, chain: seq<GameObject>)
    reads (set g | g in chain)`parent
  {
    if chain == [] then p == null
    else p == chain[0] && IsChain(chain[0].parent, chain[1..])
  }

  /** One step of the parent walk: the parent's position added, its
      orientation and scale multiplied in. */
  function Accumulate(pose: Pose, parent: Pose): Pose
  {
    Pose(pose.position.Add(parent.position), pose.orientation.Mul(parent.orientation), pose.scale.Mul(parent.scale))
  }

  /** The transform the parent walk arrives at, folding in the ancestors in
      chain order. */
  function Walk(pose: Pose, chain: seq<GameObject>): Pose
    reads (set g | g in chain)`transform
    decreases |chain|
  {
    if chain == [] then pose else Walk(Accumulate(pose, chain[0].transform), chain[1..])
  }

  /** Sum of the ancestors' positions. */
  function SumPositions(chain: seq<GameObject>): Vec3
    reads (set g | g in chain)`transform
  {
    if chain == [] then Zero3 else chain[0].transform.position.Add(SumPositions(chain[1..]))
  }

  /** Componentwise product of the ancestors' scales. */
  function ProductScales(chain: seq<GameObject>): Vec3
    reads (set g | g in chain)`transform
  {
    if chain == [] then One3 else chain[0].transform.scale.Mul(ProductScales(chain[1..]))
  }

  /** The walked position is the object's own plus the sum of its
      ancestors' positions. */
  lemma {:induction false} WalkSumsPositions(pose: Pose, chain: seq<GameObject>)
    ensures Walk(pose, chain).position == pose.position.Add(SumPositions(chain))
    decreases |chain|
  {
    if chain != [] {
      WalkSumsPositions(Accumulate(pose, chain[0].transform), chain[1..]);
    }
  }

  /** The walked scale is the object's own times the product of its
      ancestors' scales. */
  lemma {:induction false} WalkMultipliesScales(pose: Pose, chain: seq<GameObject>)
    ensures Walk(pose, chain).scale == pose.scale.Mul(ProductScales(chain))
    decreases |chain|
  {
    if chain != [] {
      var t := chain[0].transform;
      WalkMultipliesScales(Accumulate(pose, t), chain[1..]);
      MulAssociates(pose.scale, t.scale, ProductScales(chain[1..]));
    }
  }

  /** An object without a parent keeps its own transform. */
  lemma WalkRoot(pose: Pose)
    ensures Walk(pose, []) == pose
  {
  }

  /** Walks the parent links from g, accumulating as the per-object pass does. */
  method WalkParents(g: GameObject, ghost chain: seq<GameObject>) returns (pose: Pose)
    requires IsChain(g.parent, chain)
    ensures pose == Walk(g.transform, chain)
  {
    pose := g.transform;
    var parent := g.parent;
    ghost var k := 0;
    while parent != null
      invariant 0 <= k <= |chain|
      invariant IsChain(parent, chain[k..])
      invariant Walk(pose, chain[k..]) == Walk(g.transform, chain)
      decreases |chain| - k
    {
      assert chain[k..][1..] == chain[k + 1..];
      pose := Accumulate(pose, parent.transform);
      parent := parent.parent;
      k := k + 1;
    }
  }

  // ---------------------------------------------------------------------
  // The stream buffer and the per-object pass

  function ObjectSet(g: GameObject?): set<GameObject> { if g == null then {} else {g} }

  /** One stream-buffer slot: an object and six of its caches, as they were
      at the last rebuild. */
  datatype StreamEntry = StreamEntry(
    gameObject: GameObject?,
    text: Text?, light: Light?, actor: Actor?, camera: Camera?,
    rigidBody: RigidBody?, meshRenderer: MeshRenderer?)

  const EmptyEntry := StreamEntry(null, null, null, null, null, null, null)

  function EntryOf(g: GameObject): (e: StreamEntry)
    reads g
  {
    StreamEntry(g, g.textCache, g.lightCache, g.actorCache, g.cameraCache, g.rigidBodyCache, g.meshRendererCache)
  }

  /** The renderer's viewport and display, read by text anchoring and mouse look. */
  datatype Display = Display(viewportW: int, viewportH: int, displayH: int, center: Point)

  /** A slot whose text will be laid out has a renderer with a mesh to clear,
      and its object has a cached renderer for AddMeshText to use. */
  ghost predicate TextReady(e: StreamEntry)
    reads RendererSet(e.meshRenderer)`mesh, ObjectSet(e.gameObject)`meshRendererCache
  {
    e.text != null && e.meshRenderer != null ==>
      e.meshRenderer.mesh != null && e.gameObject != null && e.gameObject.meshRendererCache != null
  }

  /** The two meshes the text step writes: the one it clears and the one
      AddMeshText appends to. */
  function TextMeshes(e: StreamEntry): set<Mesh>
    requires e.gameObject != null
    reads RendererSet(e.meshRenderer)`mesh, ObjectSet(e.gameObject)`meshRendererCache,
          RendererSet(e.gameObject.meshRendererCache)`mesh
  {
    if e.text == null || e.meshRenderer == null then {}
    else MeshSet(e.meshRenderer.mesh) +
         (if e.gameObject.meshRendererCache == null then {} else MeshSet(e.gameObject.meshRendererCache.mesh))
  }

  /** The transform the rest of the pass uses: the walked one, with the
      rigid body's position and orientation in place of the walked ones. */
  function Current(walked: Pose, b: RigidBody?): Pose
    reads BodySet(b)`position, BodySet(b)`orientation
  {
    if b == null then walked else walked.(position := b.position, orientation := b.orientation)
  }

  function TextSet(t: Text?): set<Text> { if t == null then {} else {t} }

  /** The object's own transform after its step of the pass: its own
      transform with the body's position and orientation in place, then, for
      a text element with a renderer, the anchored y and z. The walked parent
      chain does not reach it. */
  function ObjectPose(e: StreamEntry, display: Display): Pose
    requires e.gameObject != null
    reads ObjectSet(e.gameObject)`transform, BodySet(e.rigidBody)`position, BodySet(e.rigidBody)`orientation,
          TextSet(e.text)
  {
    var own := Current(e.gameObject.transform, e.rigidBody);
    if e.text != null && e.meshRenderer != null then
      own.(position := own.position.(
             y := AnchorY(display.displayH, display.viewportH, e.text.size, e.text.canvas) as real,
             z := AnchorZ(display.viewportW, e.text.size, e.text.canvas, |e.text.text|) as real))
    else own
  }

  /** The matrix handed to the mesh renderer. */
  function ModelMatrix(walked: Pose, b: RigidBody?, ownScale: Vec3): Matrix
    reads BodySet(b)`position, BodySet(b)`orientation
  {
    if b == null then Trs(walked.position, walked.orientation, walked.scale)
    else BodyScaled(b.position, b.orientation, ownScale)
  }

  /** What the step of one active slot does, from the transform its parent
      walk arrived at. */
  twostate predicate Synced(e: StreamEntry, display: Display, cursor: Point, walked: Pose)
    requires e.gameObject != null && old(TextReady(e))
    reads *
  {
    // the object's own transform: the body's position and orientation, then the text anchors
    e.gameObject.transform == old(ObjectPose(e, display)) &&
    // the mesh renderer: always the matrix; the transform only without a body
    (e.meshRenderer != null ==>
       e.meshRenderer.matrix == old(ModelMatrix(walked, e.rigidBody, e.gameObject.transform.scale)) &&
       e.meshRenderer.transform == if e.rigidBody == null then walked else old(e.meshRenderer.transform)) &&
    // the actor: an active actor of an object with a body gets the position and pushes its velocity
    (e.actor != null ==>
       e.actor.position == if old(e.actor.active) && e.rigidBody != null
                           then old(Current(walked, e.rigidBody)).position else old(e.actor.position)) &&
    (e.rigidBody != null ==>
       e.rigidBody.calls == old(e.rigidBody.calls) +
         if e.actor != null && old(e.actor.active) then [ApplyLocalForceAtCenterOfMass(old(e.actor.velocity))] else []) &&
    // the text mesh: cleared, then refilled from the string and uploaded
    (e.text != null && e.meshRenderer != null ==>
       var cleared := old(e.meshRenderer.mesh);
       var filled := old(e.gameObject.meshRendererCache.mesh);
       (filled != null ==>
          filled.subMeshes ==
            (if filled == cleared then [] else old(filled.subMeshes)) +
            TextQuads(old(GlyphsOf(e.gameObject.textCache)), 0.0, 0.0,
                      old(e.text.glyphWidth), old(e.text.glyphHeight), old(e.text.text), old(e.text.color)) &&
          filled.uploads == old(filled.uploads) + 1) &&
       (filled != cleared ==> cleared.subMeshes == [])) &&
    // the camera: mouse look, then orientation x/y from the look angle and the position
    (e.camera != null ==>
       var look := if old(e.camera.useMouseLook) then
                     LookUpdate(old(e.camera.lookAngle), cursor, display.center,
                                old(e.camera.mouseSensitivityYaw), old(e.camera.mouseSensitivityPitch))
                   else old(e.camera.lookAngle);
       e.camera.lookAngle == look &&
       e.camera.transform ==
         old(e.camera.transform).(
           orientation := old(e.camera.transform.orientation).(x := look.x, y := look.y),
           position := old(Current(walked, e.rigidBody)).position)) &&
    // the light: position and direction of the current transform
    (e.light != null ==>
       var cur := old(Current(walked, e.rigidBody));
       e.light.position == cur.position && e.light.direction == EulerAnglesOf(cur.orientation))
  }

  /** The per-object step of the frame pass for one active stream slot:
      the parent chain is walked, then the components are synchronised. */
  method SyncEntry(e: StreamEntry, display: Display, cursor: Point, ghost chain: seq<GameObject>)
    requires e.gameObject != null && IsChain(e.gameObject.parent, chain)
    requires TextReady(e)
    modifies e.gameObject`transform, BodySet(e.rigidBody)`calls,
             RendererSet(e.meshRenderer)`transform, RendererSet(e.meshRenderer)`matrix,
             ActorSet(e.actor)`position, CameraSet(e.camera)`lookAngle, CameraSet(e.camera)`transform,
             LightSet(e.light)`position, LightSet(e.light)`direction,
             TextMeshes(e)`subMeshes, TextMeshes(e)`uploads
    ensures Synced(e, display, cursor, old(Walk(e.gameObject.transform, chain)))
  {
    var walked := WalkParents(e.gameObject, chain);
    SyncWalked(e, display, cursor, walked);
  }

  /** The per-object step once the parent chain has been walked: the
      components are synchronised from the walked transform. */
  method SyncWalked(e: StreamEntry, display: Display, cursor: Point, walked: Pose)
    requires e.gameObject != null
    requires TextReady(e)
    modifies e.gameObject`transform, BodySet(e.rigidBody)`calls,
             RendererSet(e.meshRenderer)`transform, RendererSet(e.meshRenderer)`matrix,
             ActorSet(e.actor)`position, CameraSet(e.camera)`lookAngle, CameraSet(e.camera)`transform,
             LightSet(e.light)`position, LightSet(e.light)`direction,
             TextMeshes(e)`subMeshes, TextMeshes(e)`uploads
    ensures Synced(e, display, cursor, walked)
  {
    var current := SyncMotion(e, walked);
    // the first half touches neither the text, nor any mesh, nor the object's caches
    assert e.meshRenderer != null ==> e.meshRenderer.mesh == old(e.meshRenderer.mesh);
    assert e.gameObject.meshRendererCache == old(e.gameObject.meshRendererCache);
    assert e.gameObject.textCache == old(e.gameObject.textCache);
    assert e.text != null ==> e.text.glyphWidth == old(e.text.glyphWidth) && e.text.glyphHeight == old(e.text.glyphHeight) &&
                              e.text.text == old(e.text.text) && e.text.color == old(e.text.color);
    assert GlyphsOf(e.gameObject.textCache) == old(GlyphsOf(e.gameObject.textCache));
    SyncViews(e, display, cursor, current);
  }

  /** The first half of the step: rigid body, mesh renderer and actor. */
  method SyncMotion(e: StreamEntry, walked: Pose) returns (current: Pose)
    requires e.gameObject != null
    modifies e.gameObject`transform, BodySet(e.rigidBody)`calls,
             RendererSet(e.meshRenderer)`transform, RendererSet(e.meshRenderer)`matrix,
             ActorSet(e.actor)`position
    ensures current == old(Current(walked, e.rigidBody))
    ensures e.gameObject.transform == old(Current(e.gameObject.transform, e.rigidBody))
    ensures e.meshRenderer != null ==>
              e.meshRenderer.matrix == old(ModelMatrix(walked, e.rigidBody, e.gameObject.transform.scale)) &&
              e.meshRenderer.transform == if e.rigidBody == null then walked else old(e.meshRenderer.transform)
    ensures e.actor != null ==>
              e.actor.position == if old(e.actor.active) && e.rigidBody != null
                                  then current.position else old(e.actor.position)
    ensures e.rigidBody != null ==>
              e.rigidBody.calls == old(e.rigidBody.calls) +
                if e.actor != null && old(e.actor.active) then [ApplyLocalForceAtCenterOfMass(old(e.actor.velocity))] else []
  {
    var matrix;
    current, matrix := SyncBody(e.gameObject, e.rigidBody, walked);
    SyncRenderer(e.meshRenderer, e.rigidBody == null, current, matrix);
    SyncActor(e.actor, e.rigidBody, current.position);
  }

  /** The second half of the step: text layout, camera and light, from the
      current transform the first half produced. */
  method SyncViews(e: StreamEntry, display: Display, cursor: Point, current: Pose)
    requires e.gameObject != null
    requires TextReady(e)
    modifies e.gameObject`transform, CameraSet(e.camera)`lookAngle, CameraSet(e.camera)`transform,
             LightSet(e.light)`position, LightSet(e.light)`direction,
             TextMeshes(e)`subMeshes, TextMeshes(e)`uploads
    ensures e.gameObject.transform ==
              if e.text != null && e.meshRenderer != null then
                old(e.gameObject.transform).(position := old(e.gameObject.transform.position).(
                  y := old(AnchorY(display.displayH, display.viewportH, e.text.size, e.text.canvas)) as real,
                  z := old(AnchorZ(display.viewportW, e.text.size, e.text.canvas, |e.text.text|)) as real))
              else old(e.gameObject.transform)
    ensures e.text != null && e.meshRenderer != null ==>
              var cleared := old(e.meshRenderer.mesh);
              var filled := old(e.gameObject.meshRendererCache.mesh);
              (filled != null ==>
                 filled.subMeshes ==
                   (if filled == cleared then [] else old(filled.subMeshes)) +
                   TextQuads(old(GlyphsOf(e.gameObject.textCache)), 0.0, 0.0,
                             old(e.text.glyphWidth), old(e.text.glyphHeight), old(e.text.text), old(e.text.color)) &&
                 filled.uploads == old(filled.uploads) + 1) &&
              (filled != cleared ==> cleared.subMeshes == [])
    ensures e.camera != null ==>
              var look := if old(e.camera.useMouseLook) then
                            LookUpdate(old(e.camera.lookAngle), cursor, display.center,
                                       old(e.camera.mouseSensitivityYaw), old(e.camera.mouseSensitivityPitch))
                          else old(e.camera.lookAngle);
              e.camera.lookAngle == look &&
              e.camera.transform ==
                old(e.camera.transform).(orientation := old(e.camera.transform.orientation).(x := look.x, y := look.y),
                                         position := current.position)
    ensures e.light != null ==>
              e.light.position == current.position && e.light.direction == EulerAnglesOf(current.orientation)
  {
    if e.text != null && e.meshRenderer != null {
      LayoutText(e.gameObject, e.text, e.meshRenderer, display);
    }
    SyncCamera(e.camera, display, cursor, current.position);
    SyncLight(e.light, current);
  }

  /** Rigid-body step: the body's position and orientation replace the
      walked ones and are written back into the object's transform; the
      matrix becomes the body's, scaled by the object's own scale. */
  method SyncBody(g: GameObject, b: RigidBody?, walked: Pose) returns (current: Pose, matrix: Matrix)
    modifies g`transform
    ensures current == Current(walked, b)
    ensures matrix == ModelMatrix(walked, b, old(g.transform.scale))
    ensures g.transform == old(Current(g.transform, b))
  {
    current := walked;
    matrix := Trs(walked.position, walked.orientation, walked.scale);
    if b != null {
      current := current.(position := b.position, orientation := b.orientation);
      g.transform := g.transform.(position := current.position, orientation := current.orientation);
      matrix := BodyScaled(b.position, b.orientation, g.transform.scale);
    }
  }

  /** Mesh-renderer step: the matrix always, the transform only when no
      body supplied position and orientation. */
  method SyncRenderer(m: MeshRenderer?, noBody: bool, current: Pose, matrix: Matrix)
    modifies RendererSet(m)`transform, RendererSet(m)`matrix
    ensures m != null ==> m.matrix == matrix && m.transform == if noBody then current else old(m.transform)
  {
    if m != null {
      m.matrix := matrix;
      if noBody {
        m.transform := current;
      }
    }
  }

  /** Actor step: an active actor on an object with a body takes the
      current position, and its velocity is pushed to the body as a force. */
  method SyncActor(a: Actor?, b: RigidBody?, position: Vec3)
    modifies ActorSet(a)`position, BodySet(b)`calls
    ensures a != null ==> a.position == if old(a.active) && b != null then position else old(a.position)
    ensures b != null ==>
              b.calls == old(b.calls) + if a != null && old(a.active) then [ApplyLocalForceAtCenterOfMass(old(a.velocity))] else []
  {
    if a != null && a.active && b != null {
      var actorVelocity := a.velocity;
      a.position := position;
      b.calls := b.calls + [ApplyLocalForceAtCenterOfMass(actorVelocity)];
    }
  }

  /** Text step: the object's transform gets the anchored z and y, the
      renderer's mesh is cleared and the string is laid out again through
      the object's cached renderer. */
  method LayoutText(g: GameObject, t: Text, m: MeshRenderer, display: Display)
    requires m.mesh != null && g.meshRendererCache != null
    modifies g`transform, m.mesh`subMeshes, MeshSet(g.meshRendererCache.mesh)`subMeshes,
             MeshSet(g.meshRendererCache.mesh)`uploads
    ensures g.transform == old(g.transform).(position := old(g.transform.position).(
              y := AnchorY(display.displayH, display.viewportH, t.size, t.canvas) as real,
              z := AnchorZ(display.viewportW, t.size, t.canvas, |t.text|) as real))
    ensures var cleared := m.mesh;
            var filled := g.meshRendererCache.mesh;
            (filled != null ==>
               filled.subMeshes ==
                 (if filled == cleared then [] else old(filled.subMeshes)) +
                 TextQuads(GlyphsOf(g.textCache), 0.0, 0.0, t.glyphWidth, t.glyphHeight, t.text, t.color) &&
               filled.uploads == old(filled.uploads) + 1) &&
            (filled != cleared ==> cleared.subMeshes == [])
  {
    var z := AnchorZ(display.viewportW, t.size, t.canvas, |t.text|);
    g.transform := g.transform.(position := g.transform.position.(z := z as real));
    var y := AnchorY(display.displayH, display.viewportH, t.size, t.canvas);
    g.transform := g.transform.(position := g.transform.position.(y := y as real));
    m.mesh.ClearSubMeshes();
    AddMeshText(g, 0.0, 0.0, t.glyphWidth, t.glyphHeight, t.text, t.color);
  }

  /** Camera step: with mouse look the look angle takes one LookUpdate step;
      then the orientation's x and y are taken from the look angle and the
      position from the current transform. */
  method SyncCamera(c: Camera?, display: Display, cursor: Point, position: Vec3)
    modifies CameraSet(c)`lookAngle, CameraSet(c)`transform
    ensures c != null ==>
              var look := if old(c.useMouseLook) then
                            LookUpdate(old(c.lookAngle), cursor, display.center,
                                       old(c.mouseSensitivityYaw), old(c.mouseSensitivityPitch))
                          else old(c.lookAngle);
              c.lookAngle == look &&
              c.transform == old(c.transform).(orientation := old(c.transform.orientation).(x := look.x, y := look.y),
                                                position := position)
  {
    if c != null {
      if c.useMouseLook {
        c.lookAngle := LookUpdate(c.lookAngle, cursor, display.center,
                                  c.mouseSensitivityYaw, c.mouseSensitivityPitch);
      }
      var look := c.lookAngle;
      c.transform := c.transform.(orientation := c.transform.orientation.(x := look.x, y := look.y),
                                  position := position);
    }
  }

  /** Light step: position and direction from the current transform. */
  method SyncLight(l: Light?, current: Pose)
    modifies LightSet(l)`position, LightSet(l)`direction
    ensures l != null ==> l.position == current.position && l.direction == EulerAnglesOf(current.orientation)
  {
    if l != null {
      l.position := current.position;
      l.direction := EulerAnglesOf(current.orientation);
    }
  }

  // ---------------------------------------------------------------------
  // The engine: object and component registry, stream buffer, frame pass

  /** The kinds CreateComponent and DestroyComponent dispatch on; the
      others fall through to the default branch. */
  predicate Supported(t: ComponentType)
  {
    t != TransformType && t != PanelType
  }

  /** The stream slots of a list of objects: each object with its six caches. */
  function Entries(gos: seq<GameObject>): (r: seq<StreamEntry>)
    reads set g | g in gos
    ensures |r| == |gos|
    ensures forall k :: 0 <= k < |gos| ==> r[k] == EntryOf(gos[k])
  {
    if gos == [] then [] else Entries(gos[..|gos| - 1]) + [EntryOf(gos[|gos| - 1])]
  }

  /** The handles among cs whose kind has a pool, and their payloads. */
  function SupportedHandles(cs: seq<Component>): set<Component>
  {
    set c | c in cs && Supported(c.GetType())
  }

  function SupportedPayloads(cs: seq<Component>): set<Payload>
  {
    set c | c in cs && Supported(c.GetType()) :: c.payload
  }

  // What the per-object pass over a list of slots may write.
  function ObjectsOf(p: seq<StreamEntry>): set<GameObject> { set e | e in p && e.gameObject != null :: e.gameObject }
  function BodiesOf(p: seq<StreamEntry>): set<RigidBody> { set e | e in p && e.rigidBody != null :: e.rigidBody }
  function RenderersOf(p: seq<StreamEntry>): set<MeshRenderer> { set e | e in p && e.meshRenderer != null :: e.meshRenderer }
  function ActorsOf(p: seq<StreamEntry>): set<Actor> { set e | e in p && e.actor != null :: e.actor }
  function CamerasOf(p: seq<StreamEntry>): set<Camera> { set e | e in p && e.camera != null :: e.camera }
  function LightsOf(p: seq<StreamEntry>): set<Light> { set e | e in p && e.light != null :: e.light }

  function MeshesOf(p: seq<StreamEntry>): set<Mesh>
    reads RenderersOf(p)`mesh, ObjectsOf(p)`meshRendererCache,
          set e | e in p && e.gameObject != null && e.gameObject.meshRendererCache != null :: e.gameObject.meshRendererCache`mesh
  {
    set e, m | e in p && e.gameObject != null && m in TextMeshes(e) :: m
  }


  /** What a pass may write, kind by kind. */
  datatype Footprint = Footprint(objects: set<GameObject>, bodies: set<RigidBody>,
                                 renderers: set<MeshRenderer>, actors: set<Actor>,
                                 cameras: set<Camera>, lights: set<Light>, meshes: set<Mesh>)

  /** Everything the step for slot e writes lies in fp. */
  ghost predicate Covers(fp: Footprint, e: StreamEntry)
    requires e.gameObject != null
    reads RendererSet(e.meshRenderer)`mesh, ObjectSet(e.gameObject)`meshRendererCache,
          RendererSet(e.gameObject.meshRendererCache)`mesh
  {
    e.gameObject in fp.objects && BodySet(e.rigidBody) <= fp.bodies &&
    RendererSet(e.meshRenderer) <= fp.renderers && ActorSet(e.actor) <= fp.actors &&
    CameraSet(e.camera) <= fp.cameras && LightSet(e.light) <= fp.lights &&
    TextMeshes(e) <= fp.meshes
  }

  /** The footprint of a list of slots: the least one covering each slot. */
  function FootprintOf(p: seq<StreamEntry>): (fp: Footprint)
    reads RenderersOf(p)`mesh, ObjectsOf(p)`meshRendererCache,
          set e | e in p && e.gameObject != null && e.gameObject.meshRendererCache != null :: e.gameObject.meshRendererCache`mesh
    ensures forall k :: 0 <= k < |p| && p[k].gameObject != null ==> Covers(fp, p[k])
  {
    Footprint(ObjectsOf(p), BodiesOf(p), RenderersOf(p), ActorsOf(p), CamerasOf(p), LightsOf(p), MeshesOf(p))
  }

  /** Every slot of the pass is covered by fp, and each active slot's
      object has a parent chain that ends and a text step with meshes. */
  ghost predicate PassReady(pass: seq<StreamEntry>, chains: seq<seq<GameObject>>, fp: Footprint)
    reads ObjectsOf(pass)`isActive, ObjectsOf(pass)`parent, ObjectsOf(pass)`meshRendererCache,
          RenderersOf(pass)`mesh,
          set e | e in pass && e.gameObject != null && e.gameObject.meshRendererCache != null :: e.gameObject.meshRendererCache`mesh,
          (set k, g | 0 <= k < |chains| && g in chains[k] :: g)`parent
  {
    forall k :: 0 <= k < |pass| && k < |chains| && pass[k].gameObject != null ==>
      Covers(fp, pass[k]) &&
      (pass[k].gameObject.isActive ==> IsChain(pass[k].gameObject.parent, chains[k]) && TextReady(pass[k]))
  }

  class EngineSystemManager {
    /** The game-object pool, in its iteration order. */
    var gameObjects: seq<GameObject>
    /** The active list GetGameObject indexes. */
    var active: seq<GameObject>
    /** The component-handle pool. */
    var components: set<Component>
    /** The per-kind payload pools, together. */
    var payloads: set<Payload>
    var doUpdateDataStream: bool
    var streamSize: nat
    const streamBuffer: array<StreamEntry>

    /** The payload pool of one kind. */
    function Pool(t: ComponentType): set<Payload>
      reads this
    {
      set p | p in payloads && p.Type() == t
    }

    /** Every object is in the pool once, the active list is a list of pool
        objects without repeats, the buffer has room for the pool, and a
        clean buffer lists the pool's objects in pool order. */
    ghost predicate Valid()
      reads this, streamBuffer
    {
      |gameObjects| <= streamBuffer.Length &&
      Distinct(gameObjects) && Distinct(active) &&
      (forall g :: g in active ==> g in gameObjects) &&
      (!doUpdateDataStream ==>
         streamSize == |gameObjects| &&
         forall k :: 0 <= k < |gameObjects| ==> streamBuffer[k].gameObject == gameObjects[k])
    }

    /** The slots the next pass runs over: rebuilt from the pool when the
        buffer is dirty, the buffer as it stands otherwise. */
    function Pass(): (p: seq<StreamEntry>)
      requires |gameObjects| <= streamBuffer.Length
      reads this, streamBuffer, set g | g in gameObjects
      ensures |p| == |gameObjects|
    {
      if doUpdateDataStream then Entries(gameObjects) else streamBuffer[..|gameObjects|]
    }

    /** Every slot of the next pass is the pool object at the same index. */
    lemma PassObjects()
      requires Valid()
      ensures forall k :: 0 <= k < |gameObjects| ==> Pass()[k].gameObject == gameObjects[k]
    {
    }

    constructor (capacity: nat)
      ensures gameObjects == [] && active == [] && components == {} && payloads == {}
      ensures doUpdateDataStream && streamSize == 0 && streamBuffer.Length == capacity
      ensures Valid()
    {
      gameObjects, active := [], [];
      components, payloads := {}, {};
      doUpdateDataStream, streamSize := true, 0;
      streamBuffer := new StreamEntry[capacity](_ => EmptyEntry);
    }

    /** A new object from the pool, appended to the active list; the stream
        is marked for rebuild. */
    method CreateGameObject() returns (g: GameObject)
      requires Valid() && |gameObjects| < streamBuffer.Length
      modifies this`gameObjects, this`active, this`doUpdateDataStream
      ensures fresh(g) && g.components == [] && g.isActive && g.renderDistance == -1
      ensures forall t :: g.Cache(t) == None
      ensures gameObjects == old(gameObjects) + [g] && active == old(active) + [g]
      ensures doUpdateDataStream && Valid()
    {
      g := new GameObject();
      gameObjects := gameObjects + [g];
      active := active + [g];
      doUpdateDataStream := true;
    }

    /** The active object at index, or null past the end of the list. */
    method GetGameObject(index: nat) returns (g: GameObject?)
      ensures index < |active| ==> g == active[index]
      ensures index >= |active| <==> g == null
    {
      if index < |active| {
        return active[index];
      }
      return null;
    }

    method GetGameObjectCount() returns (n: nat)
      ensures n == |gameObjects|
    {
      return |gameObjects|;
    }

    method GetComponentCount() returns (n: nat)
      ensures n == |components|
    {
      return |components|;
    }

    /** A handle of kind t over a new payload from t's pool; null, with
        nothing allocated, for a kind without a pool. */
    method CreateComponent(t: ComponentType) returns (c: Component?)
      modifies this`components, this`payloads, this`doUpdateDataStream
      ensures c != null <==> Supported(t)
      ensures c == null ==>
                components == old(components) && payloads == old(payloads) &&
                doUpdateDataStream == old(doUpdateDataStream)
      ensures c != null ==>
                fresh(c) && c.GetType() == t && c.payload !in old(payloads) &&
                components == old(components) + {c} && payloads == old(payloads) + {c.payload} &&
                doUpdateDataStream
      ensures forall k | k != t :: Pool(k) == old(Pool(k))
    {
      var p: Payload;
      match t {
        case MeshRendererType => { var m := new MeshRenderer(); p := MeshRendererP(m); }
        case CameraType => { var x := new Camera(); p := CameraP(x); }
        case LightType => { var l := new Light(); p := LightP(l); }
        case ScriptType => { var x := new Script(); p := ScriptP(x); }
        case RigidBodyType => { var b := new RigidBody(); p := RigidBodyP(b); }
        case ActorType => { var a := new Actor(); p := ActorP(a); }
        case TextType => { var x := new Text(); p := TextP(x); }
        case TransformType => { return null; }
        case PanelType => { return null; }
      }
      assert p.Type() == t;
      c := new Component(p);
      components := components + {c};
      payloads := payloads + {p};
      doUpdateDataStream := true;
    }

    /** Returns the handle and its payload to their pools; false, with
        nothing freed, for a kind without a pool. */
    method DestroyComponent(c: Component) returns (ok: bool)
      modifies this`components, this`payloads, this`doUpdateDataStream
      ensures ok <==> Supported(c.GetType())
      ensures ok ==>
                components == old(components) - {c} && payloads == old(payloads) - {c.payload} &&
                doUpdateDataStream
      ensures !ok ==>
                components == old(components) && payloads == old(payloads) &&
                doUpdateDataStream == old(doUpdateDataStream)
      ensures forall k | k != c.GetType() :: Pool(k) == old(Pool(k))
    {
      if !Supported(c.GetType()) {
        return false;
      }
      payloads := payloads - {c.payload};
      components := components - {c};
      doUpdateDataStream := true;
      return true;
    }

    /** Erases the first active-list entry for g, destroys every component
        in g's list and returns g to the pool; the stream is marked for
        rebuild. */
    method DestroyGameObject(g: GameObject) returns (ok: bool)
      requires Valid() && g in gameObjects
      modifies this`gameObjects, this`active, this`components, this`payloads, this`doUpdateDataStream
      ensures ok && doUpdateDataStream && Valid()
      ensures active == RemoveFirst(old(active), g) && g !in active
      ensures gameObjects == RemoveFirst(old(gameObjects), g) && g !in gameObjects
      ensures components == old(components) - SupportedHandles(g.components)
      ensures payloads == old(payloads) - SupportedPayloads(g.components)
    {
      EraseActive(g);
      RemoveFirstDistinct(old(active), g);
      DestroyComponentsOf(g);
      RemoveFirstDistinct(gameObjects, g);
      RemoveFirstLength(gameObjects, g);
      gameObjects := RemoveFirst(gameObjects, g);
      doUpdateDataStream := true;
      return true;
    }

    /** The search-and-erase over the active list. */
    method EraseActive(g: GameObject)
      modifies this`active
      ensures active == RemoveFirst(old(active), g)
    {
      var i := 0;
      while i < |active| && active[i] != g
        invariant 0 <= i <= |active|
        invariant g !in active[..i]
      {
        i := i + 1;
      }
      if i < |active| {
        IndexOfFirst(active, g, i);
        RemoveFirstAt(active, g);
        active := active[..i] + active[i + 1..];
      } else {
        assert active[..i] == active;
        RemoveFirstAbsent(active, g);
      }
    }

    /** DestroyComponent on every entry of g's list, in order. */
    method DestroyComponentsOf(g: GameObject)
      modifies this`components, this`payloads, this`doUpdateDataStream
      ensures components == old(components) - SupportedHandles(g.components)
      ensures payloads == old(payloads) - SupportedPayloads(g.components)
    {
      var n := 0;
      while n < |g.components|
        invariant 0 <= n <= |g.components|
        invariant components == old(components) - SupportedHandles(g.components[..n])
        invariant payloads == old(payloads) - SupportedPayloads(g.components[..n])
      {
        assert g.components[..n + 1] == g.components[..n] + [g.components[n]];
        var destroyed := DestroyComponent(g.components[n]);
        n := n + 1;
      }
      assert g.components[..n] == g.components;
    }

    /** The lazy rebuild: a dirty buffer is refilled from the pool, slot k
        holding object k and its caches, and the flag is cleared. */
    method RebuildStream()
      requires Valid()
      modifies this`doUpdateDataStream, this`streamSize, streamBuffer
      ensures streamBuffer[..|gameObjects|] == old(Pass())
      ensures streamBuffer[|gameObjects|..] == old(streamBuffer[|gameObjects|..])
      ensures !doUpdateDataStream && streamSize == |gameObjects| && Valid()
    {
      if doUpdateDataStream {
        ghost var entries := Entries(gameObjects);
        doUpdateDataStream := false;
        streamSize := |gameObjects|;
        var i := 0;
        while i < streamSize
          invariant 0 <= i <= streamSize == |gameObjects| && !doUpdateDataStream
          invariant streamBuffer[..i] == entries[..i]
          invariant streamBuffer[|gameObjects|..] == old(streamBuffer[|gameObjects|..])
        {
          streamBuffer[i] := EntryOf(gameObjects[i]);
          i := i + 1;
        }
        forall k | 0 <= k < |gameObjects| ensures streamBuffer[k].gameObject == gameObjects[k] {
          assert streamBuffer[k] == streamBuffer[..i][k];
        }
      }
    }

    /** One frame of the synchronisation pass: rebuild the stream if it is
        dirty, then run the per-object step on every slot whose object is
        active, in pool order. pass names the slots the frame runs over and
        fp what their steps may write (FootprintOf(pass) is the least such);
        cursors[k] is where the mouse cursor is
        read when slot k's camera uses mouse look; chains[k] is slot k's
        parent chain, which must end. */
    method Update(display: Display, cursors: seq<Point>, ghost chains: seq<seq<GameObject>>,
                  ghost pass: seq<StreamEntry>, ghost fp: Footprint)
      requires Valid() && pass == Pass()
      requires |cursors| == |gameObjects| && |chains| == |gameObjects|
      requires PassReady(pass, chains, fp)
      modifies this`doUpdateDataStream, this`streamSize, streamBuffer,
               fp.objects`transform, fp.bodies`calls,
               fp.renderers`transform, fp.renderers`matrix, fp.actors`position,
               fp.cameras`lookAngle, fp.cameras`transform,
               fp.lights`position, fp.lights`direction,
               fp.meshes`subMeshes, fp.meshes`uploads
      ensures Valid() && !doUpdateDataStream && streamSize == |gameObjects|
      ensures streamBuffer[..|gameObjects|] == pass
      ensures streamBuffer[|gameObjects|..] == old(streamBuffer[|gameObjects|..])
      ensures forall k :: 0 <= k < |gameObjects| && !old(gameObjects[k].isActive) ==>
                gameObjects[k].transform == old(gameObjects[k].transform)
    {
      PassObjects();
      RebuildStream();
      RunPass(display, cursors, chains, pass, fp);
    }

    /** The per-object pass over a clean stream buffer: Step on every slot
        in order. */
    method RunPass(display: Display, cursors: seq<Point>, ghost chains: seq<seq<GameObject>>,
                   ghost pass: seq<StreamEntry>, ghost fp: Footprint)
      requires Valid() && !doUpdateDataStream && streamBuffer[..|gameObjects|] == pass
      requires |cursors| == |gameObjects| && |chains| == |gameObjects|
      requires PassReady(pass, chains, fp)
      modifies fp.objects`transform, fp.bodies`calls,
               fp.renderers`transform, fp.renderers`matrix, fp.actors`position,
               fp.cameras`lookAngle, fp.cameras`transform,
               fp.lights`position, fp.lights`direction,
               fp.meshes`subMeshes, fp.meshes`uploads
      ensures forall k :: 0 <= k < |gameObjects| && !old(gameObjects[k].isActive) ==>
                gameObjects[k].transform == old(gameObjects[k].transform)
    {
      PassObjects();
      var i := 0;
      while i < |gameObjects|
        invariant 0 <= i <= |gameObjects|
        invariant forall k :: i <= k < |gameObjects| ==> gameObjects[k].transform == old(gameObjects[k].transform)
        invariant forall k :: 0 <= k < i && !old(gameObjects[k].isActive) ==>
                    gameObjects[k].transform == old(gameObjects[k].transform)
      {
        assert pass[i].gameObject == gameObjects[i];
        Step(i, display, cursors[i], chains[i], pass, fp);
        i := i + 1;
      }
    }

    /** Slot i of the pass: skipped when its object is inactive, the
        per-object step otherwise. No other object's transform changes. */
    method Step(i: nat, display: Display, cursor: Point, ghost chain: seq<GameObject>, ghost pass: seq<StreamEntry>,
                ghost fp: Footprint)
      requires Valid() && !doUpdateDataStream && streamBuffer[..|gameObjects|] == pass && i < |gameObjects|
      requires pass[i].gameObject != null && Covers(fp, pass[i])
      requires gameObjects[i].isActive ==> IsChain(gameObjects[i].parent, chain) && TextReady(pass[i])
      modifies fp.objects`transform, fp.bodies`calls,
               fp.renderers`transform, fp.renderers`matrix, fp.actors`position,
               fp.cameras`lookAngle, fp.cameras`transform,
               fp.lights`position, fp.lights`direction,
               fp.meshes`subMeshes, fp.meshes`uploads
      // an active slot gets the per-object step from its walked transform
      ensures old(gameObjects[i].isActive) ==>
                Synced(pass[i], display, cursor, old(Walk(gameObjects[i].transform, chain)))
      // an inactive slot is skipped: nothing the pass may write changes
      ensures !old(gameObjects[i].isActive) ==>
                unchanged(fp.objects`transform, fp.bodies`calls, fp.renderers`transform, fp.renderers`matrix,
                          fp.actors`position, fp.cameras`lookAngle, fp.cameras`transform,
                          fp.lights`position, fp.lights`direction, fp.meshes`subMeshes, fp.meshes`uploads)
      ensures gameObjects[i].transform ==
                if old(gameObjects[i].isActive) then old(ObjectPose(pass[i], display)) else old(gameObjects[i].transform)
      ensures forall k :: 0 <= k < |gameObjects| && k != i ==> gameObjects[k].transform == old(gameObjects[k].transform)
    {
      var e := streamBuffer[i];
      assert e == pass[i] && e.gameObject == gameObjects[i];
      if e.gameObject.isActive {
        SyncEntry(e, display, cursor, chain);
      }
      assert forall k :: 0 <= k < |gameObjects| && k != i ==> gameObjects[k] != e.gameObject;
    }
  }
}

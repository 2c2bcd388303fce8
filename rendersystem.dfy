/** The RenderSystem (source/Renderer/RenderSystem.cpp): the entity pool
    and its material ownership, the scene render queue, the viewport, and
    the per-frame batching loop that rebinds a mesh, a shader or a material
    only when it differs from the one bound last. Meshes, shaders, scenes,
    entities and scripts are opaque ids; materials are Material objects.
    Every OpenGL command and script call the frame issues is an Event in the
    log RenderFrame returns. */
module Render {
  import opened Common
  import opened Materials

  type SceneId = nat
  type EntityId = nat
  type MeshId = nat
  type ScriptId = nat
  type MaterialId = nat

  /** What the frame loop reads of an Entity. */
  datatype Entity = Entity(mesh: Option<MeshId>, material: Option<MaterialId>, script: Option<ScriptId>,
                           hasRigidBody: bool)

  /** What the frame reads of the main camera. */
  datatype CameraView = CameraView(script: Option<ScriptId>, useMouseLook: bool)

  datatype Viewport = Viewport(x: nat, y: nat, w: nat, h: nat)

  datatype Cap = DepthTest | CullFace | Blend

  /** The OpenGL commands and calls one frame issues, in order. */
  datatype Event =
    | GlViewport(viewport: Viewport)
    | ClearBuffers
    | ClearColor(color: Color)
    | UpdateScript(script: ScriptId)
    | MouseLook
    | BindMesh(mesh: MeshId)
    | BindShader(shader: ShaderId)
    | SetViewProjection(shader: ShaderId)
      /** Material::Bind and BindTextureSlot(0) */
    | BindMaterial(material: MaterialId)
    | Enable(cap: Cap)
    | Disable(cap: Cap)
    | DepthMask(on: bool)
    | DepthFunc(func: int)
    | CullSide(side: int)
    | FrontFace(winding: int)
    | BlendFuncSeparate(src: int, dst: int, srcAlpha: int, dstAlpha: int)
    | SetMaterialColor(shader: ShaderId, material: MaterialId)
    | SetTextureSampler(shader: ShaderId, unit: nat)
    | SyncRigidBody(entity: EntityId)
    | SetModelMatrix(shader: ShaderId, entity: EntityId)
    | DrawIndexArray(mesh: MeshId)
    | SwapBuffers

  // ---------------------------------------------------------------------
  // The batching loop, as a function of the entities it visits

  /** One visited entity, with its mesh's shader looked up. */
  datatype Slot = Slot(entity: EntityId, script: Option<ScriptId>, mesh: Option<MeshId>,
                       shader: Option<ShaderId>, material: Option<MaterialId>, hasRigidBody: bool)

  /** The mesh, shader and material bound last. */
  datatype Bound = Bound(mesh: Option<MeshId>, shader: Option<ShaderId>, material: Option<MaterialId>)

  /** Where the loop leaves the bindings, and what it issued. */
  datatype Trace = Trace(bound: Bound, events: seq<Event>)

  /** An entity is drawn when it has a mesh and the mesh has a shader. */
  predicate Drawn(s: Slot)
  {
    s.mesh.Some? && s.shader.Some?
  }

  /** A slot the loop can visit: a drawn entity has a material (the loop
      dereferences it). */
  type ReadySlot = s: Slot | Drawn(s) ==> s.material.Some?
    witness Slot(0, None, None, None, None, false)

  /** A material's state; a material outside the pool reads as a fresh
      material (RenderSystem.RenderFrame never meets one). */
  function StateOf(states: map<MaterialId, MaterialState>, m: MaterialId): MaterialState
  {
    if m in states then states[m] else DefaultState
  }

  function DepthEvents(st: MaterialState): seq<Event>
  {
    if st.doDepthTest then [Enable(DepthTest), DepthMask(true), DepthFunc(st.depthFunc)]
    else [Disable(DepthTest)]
  }

  /** Face culling: both branches enable GL_CULL_FACE. */
  function CullEvents(st: MaterialState): seq<Event>
  {
    if st.doFaceCulling then [Enable(CullFace), CullSide(st.faceCullSide), FrontFace(st.faceWinding)]
    else [Enable(CullFace)]
  }

  function BlendEvents(st: MaterialState): seq<Event>
  {
    if st.doBlending then
      [Enable(Blend), BlendFuncSeparate(st.blendSource, st.blendDestination, st.blendAlphaSource, st.blendAlphaDestination)]
    else [Disable(Blend)]
  }

  /** The material block: bind the material and its texture, set the depth,
      culling and blending state, then rebind the current shader and give it
      the material's colour and the texture sampler. */
  function MaterialEvents(m: MaterialId, st: MaterialState, shader: ShaderId): seq<Event>
  {
    [BindMaterial(m)] + DepthEvents(st) + CullEvents(st) + BlendEvents(st) +
    [BindShader(shader), SetMaterialColor(shader, m), SetTextureSampler(shader, 0)]
  }

  function ScriptEvents(script: Option<ScriptId>): seq<Event>
  {
    if script.Some? then [UpdateScript(script.value)] else []
  }

  function MeshSwitch(bound: Option<MeshId>, mesh: MeshId): seq<Event>
  {
    if bound != Some(mesh) then [BindMesh(mesh)] else []
  }

  function ShaderSwitch(bound: Option<ShaderId>, shader: ShaderId): seq<Event>
  {
    if bound != Some(shader) then [BindShader(shader), SetViewProjection(shader)] else []
  }

  function MaterialSwitch(bound: Option<MaterialId>, material: Option<MaterialId>,
                          states: map<MaterialId, MaterialState>, shader: ShaderId): seq<Event>
    requires material.Some?
  {
    if bound != material then MaterialEvents(material.value, StateOf(states, material.value), shader) else []
  }

  function BodyEvents(s: Slot): seq<Event>
  {
    if s.hasRigidBody then [SyncRigidBody(s.entity)] else []
  }

  /** One entity of the loop: its script update, then, for a drawn entity,
      the bindings that differ from the bound ones, the rigid-body sync, the
      model matrix and the draw call. */
  function SlotStep(b: Bound, s: ReadySlot, states: map<MaterialId, MaterialState>): Trace
  {
    if !Drawn(s) then Trace(b, ScriptEvents(s.script))
    else
      var mesh := s.mesh.value;
      var shader := s.shader.value;
      Trace(Bound(Some(mesh), Some(shader), s.material),
            ScriptEvents(s.script) + MeshSwitch(b.mesh, mesh) + ShaderSwitch(b.shader, shader) +
            MaterialSwitch(b.material, s.material, states, shader) + BodyEvents(s) +
            [SetModelMatrix(shader, s.entity), DrawIndexArray(mesh)])
  }

  /** The loop over a list of entities, from the bindings b. */
  function RunSlots(b: Bound, slots: seq<ReadySlot>, states: map<MaterialId, MaterialState>): Trace
    decreases |slots|
  {
    if slots == [] then Trace(b, [])
    else
      var s := SlotStep(b, slots[0], states);
      var r := RunSlots(s.bound, slots[1..], states);
      Trace(r.bound, s.events + r.events)
  }

  lemma AppendAssoc(a: seq<Event>, b: seq<Event>, c: seq<Event>)
    ensures a + (b + c) == a + b + c
  {
  }

  /** A non-empty run takes its first slot, then the rest. */
  lemma RunSlotsCons(b: Bound, slots: seq<ReadySlot>, states: map<MaterialId, MaterialState>)
    requires slots != []
    ensures var s := SlotStep(b, slots[0], states);
            var r := RunSlots(s.bound, slots[1..], states);
            RunSlots(b, slots, states) == Trace(r.bound, s.events + r.events)
  {
  }

  /** One frame: nothing at all without a main camera; otherwise viewport,
      clear, sky colour, camera script and mouse look, then the loop with the
      shader binding forgotten (the mesh and material bindings carry over
      from the last frame), then the buffer swap. */
  function FrameTrace(camera: Option<CameraView>, sky: Option<Color>, viewport: Viewport, b: Bound,
                      slots: seq<ReadySlot>, states: map<MaterialId, MaterialState>): Trace
  {
    if camera.None? then Trace(b, [])
    else
      var r := RunSlots(Bound(b.mesh, None, b.material), slots, states);
      Trace(r.bound, FramePrologue(camera.value, sky, viewport) + r.events + [SwapBuffers])
  }

  function FramePrologue(camera: CameraView, sky: Option<Color>, viewport: Viewport): seq<Event>
  {
    [GlViewport(viewport), ClearBuffers] +
    (if sky.Some? then [ClearColor(sky.value)] else []) +
    (if camera.script.Some? then [UpdateScript(camera.script.value)] else []) +
    (if camera.useMouseLook then [MouseLook] else [])
  }

  // ---------------------------------------------------------------------
  // Independent descriptions of the loop's output

  /** The meshes, shaders and materials of the drawn entities, in order. */
  function Meshes(slots: seq<Slot>): seq<MeshId>
  {
    if slots == [] then []
    else (if Drawn(slots[0]) then [slots[0].mesh.value] else []) + Meshes(slots[1..])
  }

  function Shaders(slots: seq<Slot>): seq<ShaderId>
  {
    if slots == [] then []
    else (if Drawn(slots[0]) then [slots[0].shader.value] else []) + Shaders(slots[1..])
  }

  function MaterialsUsed(slots: seq<Slot>): seq<Option<MaterialId>>
  {
    if slots == [] then []
    else (if Drawn(slots[0]) then [slots[0].material] else []) + MaterialsUsed(slots[1..])
  }

  /** How often an entry of xs differs from the one before it, the first
      entry compared with start. */
  function Changes<T(==)>(xs: seq<T>, start: Option<T>): nat
  {
    if xs == [] then 0
    else (if start != Some(xs[0]) then 1 else 0) + Changes(xs[1..], Some(xs[0]))
  }

  datatype Kind = MeshBinds | ShaderBinds | ViewProjections | MaterialBinds

  predicate IsKind(e: Event, k: Kind)
  {
    match k
    case MeshBinds => e.BindMesh?
    case ShaderBinds => e.BindShader?
    case ViewProjections => e.SetViewProjection?
    case MaterialBinds => e.BindMaterial?
  }

  function Count(evs: seq<Event>, k: Kind): nat
  {
    if evs == [] then 0 else (if IsKind(evs[0], k) then 1 else 0) + Count(evs[1..], k)
  }

  /** The meshes of the draw calls, in order. */
  function DrawnMeshes(evs: seq<Event>): seq<MeshId>
  {
    if evs == [] then [] else (if evs[0].DrawIndexArray? then [evs[0].mesh] else []) + DrawnMeshes(evs[1..])
  }

  lemma {:induction false} CountAppend(a: seq<Event>, b: seq<Event>, k: Kind)
    ensures Count(a + b, k) == Count(a, k) + Count(b, k)
  {
    if a == [] {
      assert a + b == b;
    } else {
      assert (a + b)[0] == a[0] && (a + b)[1..] == a[1..] + b;
      CountAppend(a[1..], b, k);
    }
  }

  lemma {:induction false} DrawnMeshesAppend(a: seq<Event>, b: seq<Event>)
    ensures DrawnMeshes(a + b) == DrawnMeshes(a) + DrawnMeshes(b)
  {
    if a == [] {
      assert a + b == b;
    } else {
      assert (a + b)[0] == a[0] && (a + b)[1..] == a[1..] + b;
      DrawnMeshesAppend(a[1..], b);
    }
  }

  /** Changes never exceeds the length, and a list of one repeated entry
      changes at most once: K entities sharing a mesh bind it at most once,
      and not at all when it is already bound. */
  lemma {:induction false} ChangesAtMostLength<T>(xs: seq<T>, start: Option<T>)
    ensures Changes(xs, start) <= |xs|
  {
    if xs != [] {
      ChangesAtMostLength(xs[1..], Some(xs[0]));
    }
  }

  lemma {:induction false} ChangesOfRepeated<T>(xs: seq<T>, x: T, start: Option<T>)
    requires forall i :: 0 <= i < |xs| ==> xs[i] == x
    ensures Changes(xs, start) == if xs != [] && start != Some(x) then 1 else 0
  {
    if xs != [] {
      ChangesOfRepeated(xs[1..], x, Some(x));
    }
  }

  // ---------------------------------------------------------------------
  // What the loop issues

  /** How many events of kind k one step issues. */
  function StepKindCount(b: Bound, s: Slot, k: Kind): nat
  {
    if !Drawn(s) then 0
    else
      var meshes := if b.mesh != s.mesh then 1 else 0;
      var shaders := if b.shader != s.shader then 1 else 0;
      var materials := if b.material != s.material then 1 else 0;
      match k
      case MeshBinds => meshes
      case ViewProjections => shaders
      case MaterialBinds => materials
      case ShaderBinds => shaders + materials
  }

  lemma StepCount(b: Bound, s: ReadySlot, states: map<MaterialId, MaterialState>, k: Kind)
    ensures Count(SlotStep(b, s, states).events, k) == StepKindCount(b, s, k)
  {
    ScriptCount(s.script, k);
    if Drawn(s) {
      var mesh := s.mesh.value;
      var shader := s.shader.value;
      var e1 := ScriptEvents(s.script);
      var e2 := MeshSwitch(b.mesh, mesh);
      var e3 := ShaderSwitch(b.shader, shader);
      var e4 := MaterialSwitch(b.material, s.material, states, shader);
      var e5 := BodyEvents(s);
      var e6 := [SetModelMatrix(shader, s.entity), DrawIndexArray(mesh)];
      CountAppend(e1, e2, k);
      CountAppend(e1 + e2, e3, k);
      CountAppend(e1 + e2 + e3, e4, k);
      CountAppend(e1 + e2 + e3 + e4, e5, k);
      CountAppend(e1 + e2 + e3 + e4 + e5, e6, k);
      MeshSwitchCount(b.mesh, mesh, k);
      ShaderSwitchCount(b.shader, shader, k);
      MaterialSwitchCount(b.material, s.material, states, shader, k);
      BodyCount(s, k);
      NoneOfKind(e6, k);
    }
  }

  /** One step draws the entity's mesh if it is drawn, and nothing else. */
  lemma StepDraws(b: Bound, s: ReadySlot, states: map<MaterialId, MaterialState>)
    ensures DrawnMeshes(SlotStep(b, s, states).events) == if Drawn(s) then [s.mesh.value] else []
  {
    PiecesDrawNothing(b, s, states);
    if Drawn(s) {
      var mesh := s.mesh.value;
      var shader := s.shader.value;
      var e1 := ScriptEvents(s.script);
      var e2 := MeshSwitch(b.mesh, mesh);
      var e3 := ShaderSwitch(b.shader, shader);
      var e4 := MaterialSwitch(b.material, s.material, states, shader);
      var e5 := BodyEvents(s);
      var e6 := [SetModelMatrix(shader, s.entity), DrawIndexArray(mesh)];
      DrawnMeshesAppend(e1, e2);
      DrawnMeshesAppend(e1 + e2, e3);
      DrawnMeshesAppend(e1 + e2 + e3, e4);
      DrawnMeshesAppend(e1 + e2 + e3 + e4, e5);
      DrawnMeshesAppend(e1 + e2 + e3 + e4 + e5, e6);
      assert e6 == [SetModelMatrix(shader, s.entity)] + [DrawIndexArray(mesh)];
      DrawnOne(SetModelMatrix(shader, s.entity));
      DrawnOne(DrawIndexArray(mesh));
      DrawnMeshesAppend([SetModelMatrix(shader, s.entity)], [DrawIndexArray(mesh)]);
    }
  }

  /** The script update, the binds and the rigid-body sync draw nothing. */
  lemma PiecesDrawNothing(b: Bound, s: ReadySlot, states: map<MaterialId, MaterialState>)
    ensures DrawnMeshes(ScriptEvents(s.script)) == []
    ensures Drawn(s) ==> DrawnMeshes(MeshSwitch(b.mesh, s.mesh.value)) == []
    ensures Drawn(s) ==> DrawnMeshes(ShaderSwitch(b.shader, s.shader.value)) == []
    ensures Drawn(s) ==> DrawnMeshes(MaterialSwitch(b.material, s.material, states, s.shader.value)) == []
    ensures DrawnMeshes(BodyEvents(s)) == []
  {
    if s.script.Some? { DrawnOne(UpdateScript(s.script.value)); }
    if s.hasRigidBody { DrawnOne(SyncRigidBody(s.entity)); }
    if Drawn(s) {
      var shader := s.shader.value;
      if b.mesh != s.mesh { DrawnOne(BindMesh(s.mesh.value)); }
      if b.shader != s.shader {
        assert ShaderSwitch(b.shader, shader) == [BindShader(shader)] + [SetViewProjection(shader)];
        DrawnOne(BindShader(shader));
        DrawnOne(SetViewProjection(shader));
        DrawnMeshesAppend([BindShader(shader)], [SetViewProjection(shader)]);
      }
      if b.material != s.material {
        var m := s.material.value;
        MaterialEventsDrawNothing(m, StateOf(states, m), shader);
      }
    }
  }

  /** A one-event list counts its event's kind. */
  lemma CountOne(e: Event, k: Kind)
    ensures Count([e], k) == if IsKind(e, k) then 1 else 0
  {
    assert [e][1..] == [];
  }

  lemma DrawnOne(e: Event)
    ensures DrawnMeshes([e]) == if e.DrawIndexArray? then [e.mesh] else []
  {
    assert [e][1..] == [];
  }

  lemma ScriptCount(script: Option<ScriptId>, k: Kind)
    ensures Count(ScriptEvents(script), k) == 0
  {
    if script.Some? { CountOne(UpdateScript(script.value), k); }
  }

  lemma MeshSwitchCount(bound: Option<MeshId>, mesh: MeshId, k: Kind)
    ensures Count(MeshSwitch(bound, mesh), k) == if k == MeshBinds && bound != Some(mesh) then 1 else 0
  {
    if bound != Some(mesh) { CountOne(BindMesh(mesh), k); }
  }

  lemma ShaderSwitchCount(bound: Option<ShaderId>, shader: ShaderId, k: Kind)
    ensures Count(ShaderSwitch(bound, shader), k) ==
              if (k == ShaderBinds || k == ViewProjections) && bound != Some(shader) then 1 else 0
  {
    if bound != Some(shader) {
      assert ShaderSwitch(bound, shader) == [BindShader(shader)] + [SetViewProjection(shader)];
      CountOne(BindShader(shader), k);
      CountOne(SetViewProjection(shader), k);
      CountAppend([BindShader(shader)], [SetViewProjection(shader)], k);
    }
  }

  lemma MaterialSwitchCount(bound: Option<MaterialId>, material: Option<MaterialId>,
                            states: map<MaterialId, MaterialState>, shader: ShaderId, k: Kind)
    requires material.Some?
    ensures Count(MaterialSwitch(bound, material, states, shader), k) ==
              if (k == ShaderBinds || k == MaterialBinds) && bound != material then 1 else 0
  {
    if bound != material {
      MaterialEventsCount(material.value, StateOf(states, material.value), shader, k);
    }
  }

  lemma BodyCount(s: Slot, k: Kind)
    ensures Count(BodyEvents(s), k) == 0
  {
    if s.hasRigidBody { CountOne(SyncRigidBody(s.entity), k); }
  }

  /** The material block binds the material once and the shader once. */
  lemma MaterialEventsCount(m: MaterialId, st: MaterialState, shader: ShaderId, k: Kind)
    ensures Count(MaterialEvents(m, st, shader), k) == if k == ShaderBinds || k == MaterialBinds then 1 else 0
  {
    var head: seq<Event> := [BindMaterial(m)];
    var state := DepthEvents(st) + CullEvents(st) + BlendEvents(st);
    var bind: seq<Event> := [BindShader(shader)];
    var rest: seq<Event> := [SetMaterialColor(shader, m), SetTextureSampler(shader, 0)];
    assert MaterialEvents(m, st, shader) == head + state + bind + rest;
    NoneOfKind(state, k);
    NoneOfKind(rest, k);
    CountOne(BindMaterial(m), k);
    CountOne(BindShader(shader), k);
    CountAppend(head, state, k);
    CountAppend(head + state, bind, k);
    CountAppend(head + state + bind, rest, k);
  }

  /** Switching material issues no draw call. */
  lemma MaterialEventsDrawNothing(m: MaterialId, st: MaterialState, shader: ShaderId)
    ensures DrawnMeshes(MaterialEvents(m, st, shader)) == []
  {
    var head: seq<Event> := [BindMaterial(m)];
    var state := DepthEvents(st) + CullEvents(st) + BlendEvents(st);
    var bind: seq<Event> := [BindShader(shader)];
    var rest: seq<Event> := [SetMaterialColor(shader, m), SetTextureSampler(shader, 0)];
    assert MaterialEvents(m, st, shader) == head + state + bind + rest;
    NoneDrawn(state);
    NoneDrawn(rest);
    DrawnOne(BindMaterial(m));
    DrawnOne(BindShader(shader));
    DrawnMeshesAppend(head, state);
    DrawnMeshesAppend(head + state, bind);
    DrawnMeshesAppend(head + state + bind, rest);
  }

  /** A list with no event of kind k counts zero of it. */
  lemma {:induction false} NoneOfKind(evs: seq<Event>, k: Kind)
    requires forall e :: e in evs ==> !IsKind(e, k)
    ensures Count(evs, k) == 0
  {
    if evs != [] {
      assert forall e :: e in evs[1..] ==> e in evs;
      NoneOfKind(evs[1..], k);
    }
  }

  /** A list with no draw call draws nothing. */
  lemma {:induction false} NoneDrawn(evs: seq<Event>)
    requires forall e :: e in evs ==> !e.DrawIndexArray?
    ensures DrawnMeshes(evs) == []
  {
    if evs != [] {
      assert forall e :: e in evs[1..] ==> e in evs;
      NoneDrawn(evs[1..]);
    }
  }

  /** Exactly one draw call per drawn entity, in visiting order. */
  lemma {:induction false} RunDraws(b: Bound, slots: seq<ReadySlot>, states: map<MaterialId, MaterialState>)
    ensures DrawnMeshes(RunSlots(b, slots, states).events) == Meshes(slots)
    decreases |slots|
  {
    if slots != [] {
      var s := SlotStep(b, slots[0], states);
      RunDraws(s.bound, slots[1..], states);
      StepDraws(b, slots[0], states);
      DrawnMeshesAppend(s.events, RunSlots(s.bound, slots[1..], states).events);
    }
  }

  /** The mesh is bound exactly when it differs from the one bound last. */
  lemma {:induction false} RunMeshBinds(b: Bound, slots: seq<ReadySlot>, states: map<MaterialId, MaterialState>)
    ensures Count(RunSlots(b, slots, states).events, MeshBinds) == Changes(Meshes(slots), b.mesh)
    decreases |slots|
  {
    if slots != [] {
      var s := SlotStep(b, slots[0], states);
      RunMeshBinds(s.bound, slots[1..], states);
      StepCount(b, slots[0], states, MeshBinds);
      CountAppend(s.events, RunSlots(s.bound, slots[1..], states).events, MeshBinds);
      if Drawn(slots[0]) {
        assert Meshes(slots) == [slots[0].mesh.value] + Meshes(slots[1..]);
        assert s.bound.mesh == Some(slots[0].mesh.value);
        ChangesCons(slots[0].mesh.value, Meshes(slots[1..]), b.mesh);
      } else {
        assert Meshes(slots) == Meshes(slots[1..]);
        assert s.bound == b;
      }
    }
  }

  /** The shader is bound, with the view-projection, exactly when it differs
      from the one bound last. */
  lemma {:induction false} RunShaderBinds(b: Bound, slots: seq<ReadySlot>, states: map<MaterialId, MaterialState>)
    ensures Count(RunSlots(b, slots, states).events, ViewProjections) == Changes(Shaders(slots), b.shader)
    decreases |slots|
  {
    if slots != [] {
      var s := SlotStep(b, slots[0], states);
      RunShaderBinds(s.bound, slots[1..], states);
      StepCount(b, slots[0], states, ViewProjections);
      CountAppend(s.events, RunSlots(s.bound, slots[1..], states).events, ViewProjections);
      if Drawn(slots[0]) {
        assert Shaders(slots) == [slots[0].shader.value] + Shaders(slots[1..]);
        assert s.bound.shader == Some(slots[0].shader.value);
        ChangesCons(slots[0].shader.value, Shaders(slots[1..]), b.shader);
      } else {
        assert Shaders(slots) == Shaders(slots[1..]);
        assert s.bound == b;
      }
    }
  }

  /** The material block runs exactly when the entity's material differs
      from the one bound last. */
  lemma {:induction false} RunMaterialBinds(b: Bound, slots: seq<ReadySlot>, states: map<MaterialId, MaterialState>)
    ensures Count(RunSlots(b, slots, states).events, MaterialBinds) == Changes(MaterialsUsed(slots), Some(b.material))
    decreases |slots|
  {
    if slots != [] {
      var s := SlotStep(b, slots[0], states);
      RunMaterialBinds(s.bound, slots[1..], states);
      StepCount(b, slots[0], states, MaterialBinds);
      CountAppend(s.events, RunSlots(s.bound, slots[1..], states).events, MaterialBinds);
      if Drawn(slots[0]) {
        assert MaterialsUsed(slots) == [slots[0].material] + MaterialsUsed(slots[1..]);
        assert Some(s.bound.material) == Some(slots[0].material);
        ChangesCons(slots[0].material, MaterialsUsed(slots[1..]), Some(b.material));
      } else {
        assert MaterialsUsed(slots) == MaterialsUsed(slots[1..]);
        assert s.bound == b;
      }
    }
  }

  /** Every shader bind is either a shader switch or the rebind at the end
      of a material block. */
  lemma {:induction false} RunShaderRebinds(b: Bound, slots: seq<ReadySlot>, states: map<MaterialId, MaterialState>)
    ensures var evs := RunSlots(b, slots, states).events;
            Count(evs, ShaderBinds) == Count(evs, ViewProjections) + Count(evs, MaterialBinds)
    decreases |slots|
  {
    if slots != [] {
      var s := SlotStep(b, slots[0], states);
      var r := RunSlots(s.bound, slots[1..], states);
      RunShaderRebinds(s.bound, slots[1..], states);
      StepCount(b, slots[0], states, ShaderBinds);
      StepCount(b, slots[0], states, ViewProjections);
      StepCount(b, slots[0], states, MaterialBinds);
      CountAppend(s.events, r.events, ShaderBinds);
      CountAppend(s.events, r.events, ViewProjections);
      CountAppend(s.events, r.events, MaterialBinds);
    }
  }

  lemma ChangesCons<T>(x: T, xs: seq<T>, start: Option<T>)
    ensures Changes([x] + xs, start) == (if start != Some(x) then 1 else 0) + Changes(xs, Some(x))
  {
    assert ([x] + xs)[1..] == xs;
  }

  /** The culling quirk: a material with culling disabled still enables
      GL_CULL_FACE; the side and winding are set only with culling on. */
  lemma CullingAlwaysEnabled(m: MaterialId, st: MaterialState, shader: ShaderId)
    ensures Enable(CullFace) in MaterialEvents(m, st, shader)
    ensures Disable(CullFace) !in MaterialEvents(m, st, shader)
    ensures CullSide(st.faceCullSide) in MaterialEvents(m, st, shader) <==> st.doFaceCulling
  {
    var evs := MaterialEvents(m, st, shader);
    var cull := CullEvents(st);
    assert evs == [BindMaterial(m)] + DepthEvents(st) + cull + BlendEvents(st) +
                  [BindShader(shader), SetMaterialColor(shader, m), SetTextureSampler(shader, 0)];
    assert Enable(CullFace) == cull[0];
    assert forall i :: 0 <= i < |evs| ==> !evs[i].CullSide? || st.doFaceCulling;
    if st.doFaceCulling {
      assert CullSide(st.faceCullSide) == cull[1];
    }
  }

  // ---------------------------------------------------------------------
  // What a frame issues

  /** Without a main camera a frame issues nothing and keeps the bindings. */
  lemma FrameWithoutCamera(sky: Option<Color>, viewport: Viewport, b: Bound,
                           slots: seq<ReadySlot>, states: map<MaterialId, MaterialState>)
    ensures FrameTrace(None, sky, viewport, b, slots, states) == Trace(b, [])
  {
  }

  /** With a camera, a frame issues one draw call per drawn entity, in
      visiting order. */
  lemma FrameDraws(camera: CameraView, sky: Option<Color>, viewport: Viewport, b: Bound,
                   slots: seq<ReadySlot>, states: map<MaterialId, MaterialState>)
    ensures DrawnMeshes(FrameTrace(Some(camera), sky, viewport, b, slots, states).events) == Meshes(slots)
  {
    var start := Bound(b.mesh, None, b.material);
    var r := RunSlots(start, slots, states);
    var pre := FramePrologue(camera, sky, viewport);
    var post: seq<Event> := [SwapBuffers];
    assert forall e :: e in pre ==>
             e.GlViewport? || e.ClearBuffers? || e.ClearColor? || e.UpdateScript? || e.MouseLook?;
    NoneDrawn(pre);
    NoneDrawn(post);
    RunDraws(start, slots, states);
    DrawnMeshesAppend(pre, r.events);
    DrawnMeshesAppend(pre + r.events, post);
  }

  /** With a camera, the mesh and the material are bound on change against
      the previous frame's bindings, the shader on change from nothing, so
      the first drawn entity always binds its shader. */
  lemma FrameBinds(camera: CameraView, sky: Option<Color>, viewport: Viewport, b: Bound,
                   slots: seq<ReadySlot>, states: map<MaterialId, MaterialState>)
    ensures var evs := FrameTrace(Some(camera), sky, viewport, b, slots, states).events;
            Count(evs, MeshBinds) == Changes(Meshes(slots), b.mesh) &&
            Count(evs, ViewProjections) == Changes(Shaders(slots), None) &&
            Count(evs, MaterialBinds) == Changes(MaterialsUsed(slots), Some(b.material)) &&
            Count(evs, ShaderBinds) == Count(evs, ViewProjections) + Count(evs, MaterialBinds) &&
            (Shaders(slots) != [] ==> Count(evs, ViewProjections) >= 1)
  {
    var start := Bound(b.mesh, None, b.material);
    var r := RunSlots(start, slots, states);
    var pre := FramePrologue(camera, sky, viewport);
    var post: seq<Event> := [SwapBuffers];
    assert forall e :: e in pre ==>
             e.GlViewport? || e.ClearBuffers? || e.ClearColor? || e.UpdateScript? || e.MouseLook?;
    RunMeshBinds(start, slots, states);
    RunShaderBinds(start, slots, states);
    RunMaterialBinds(start, slots, states);
    RunShaderRebinds(start, slots, states);
    FrameKindCount(pre, r.events, post, MeshBinds);
    FrameKindCount(pre, r.events, post, ViewProjections);
    FrameKindCount(pre, r.events, post, MaterialBinds);
    FrameKindCount(pre, r.events, post, ShaderBinds);
  }

  /** Around the loop, a frame binds nothing. */
  lemma FrameKindCount(pre: seq<Event>, loop: seq<Event>, post: seq<Event>, k: Kind)
    requires forall e :: e in pre ==>
               e.GlViewport? || e.ClearBuffers? || e.ClearColor? || e.UpdateScript? || e.MouseLook?
    requires post == [SwapBuffers]
    ensures Count(pre + loop + post, k) == Count(loop, k)
  {
    NoneOfKind(pre, k);
    NoneOfKind(post, k);
    CountAppend(pre, loop, k);
    CountAppend(pre + loop, post, k);
  }

  // ---------------------------------------------------------------------
  // The entities a frame visits

  /** The scene, entity, mesh and material pools, as the frame loop reads
      them: each scene's entity queue, each entity, each mesh's shader, and
      the ids of the pooled materials. */
  datatype Pools = Pools(scenes: map<SceneId, seq<EntityId>>, entities: map<EntityId, Entity>,
                         meshShaders: map<MeshId, Option<ShaderId>>, materials: set<MaterialId>)
  {
    /** The entity's mesh is pooled, and if that mesh has a shader the
        entity has a pooled material (the loop dereferences both). */
    predicate EntityReady(e: Entity)
    {
      e.mesh.Some? ==>
        e.mesh.value in meshShaders &&
        (meshShaders[e.mesh.value].Some? ==> e.material.Some? && e.material.value in materials)
    }

    predicate SceneReady(ids: seq<EntityId>)
    {
      forall j :: 0 <= j < |ids| ==> ids[j] in entities && EntityReady(entities[ids[j]])
    }

    predicate QueueReady(q: seq<SceneId>)
    {
      forall k :: 0 <= k < |q| ==> q[k] in scenes && SceneReady(scenes[q[k]])
    }

    /** An entity as the loop sees it. */
    function SlotOf(id: EntityId): (s: ReadySlot)
      requires id in entities && EntityReady(entities[id])
      ensures s.entity == id && s.mesh == entities[id].mesh && s.material == entities[id].material
      ensures Drawn(s) ==> s.material.value in materials
    {
      var e := entities[id];
      Slot(id, e.script, e.mesh, if e.mesh.Some? then meshShaders[e.mesh.value] else None, e.material, e.hasRigidBody)
    }

    /** A scene's entities, in its queue's order. */
    function SceneSlots(ids: seq<EntityId>): (r: seq<ReadySlot>)
      requires SceneReady(ids)
      ensures |r| == |ids|
      ensures forall j :: 0 <= j < |ids| ==> r[j] == SlotOf(ids[j])
    {
      if ids == [] then [] else [SlotOf(ids[0])] + SceneSlots(ids[1..])
    }

    /** The entities of the queued scenes, scene by scene, in queue order. */
    function QueueSlots(q: seq<SceneId>): (r: seq<ReadySlot>)
      requires QueueReady(q)
    {
      if q == [] then [] else SceneSlots(scenes[q[0]]) + QueueSlots(q[1..])
    }

    /** A non-empty queue visits its first scene, then the rest. */
    lemma QueueCons(q: seq<SceneId>)
      requires QueueReady(q) && q != []
      ensures q[0] in scenes && SceneReady(scenes[q[0]]) && QueueReady(q[1..])
      ensures QueueSlots(q) == SceneSlots(scenes[q[0]]) + QueueSlots(q[1..])
    {
      assert forall k :: 0 <= k < |q[1..]| ==> q[1..][k] == q[k + 1];
    }
  }

  // ---------------------------------------------------------------------
  // The render system

  class RenderSystem {
    /** The scenes drawn each frame, in order. */
    var renderQueue: seq<SceneId>
    /** The scene pool: each scene's entity queue. */
    var scenes: map<SceneId, seq<EntityId>>
    /** The entity pool. */
    var entities: map<EntityId, Entity>
    /** The mesh pool: each mesh's shader. */
    var meshShaders: map<MeshId, Option<ShaderId>>
    /** The material pool. */
    var materials: map<MaterialId, Material>
    /** The script pool. */
    var scripts: set<ScriptId>
    var currentMesh: Option<MeshId>
    var currentShader: Option<ShaderId>
    var currentMaterial: Option<MaterialId>
    var cameraMain: Option<CameraView>
    var skyMain: Option<Color>
    var defaultMaterial: Option<MaterialId>
    var viewport: Viewport
    /** Every entity id in use is below this. */
    var nextEntity: nat

    ghost predicate Valid()
      reads this
    {
      forall id :: id in entities ==> id < nextEntity
    }

    function Current(): Bound
      reads this
    {
      Bound(currentMesh, currentShader, currentMaterial)
    }

    constructor ()
      ensures renderQueue == [] && Current() == Bound(None, None, None) && cameraMain == None
      ensures entities == map[] && scenes == map[] && meshShaders == map[] && materials == map[] && scripts == {}
      ensures skyMain == None && defaultMaterial == None
      ensures Valid()
    {
      renderQueue := [];
      scenes, entities, meshShaders, materials, scripts := map[], map[], map[], map[], {};
      currentMesh, currentShader, currentMaterial := None, None, None;
      cameraMain, skyMain, defaultMaterial := None, None, None;
      viewport := Viewport(0, 0, 0, 0);
      nextEntity := 0;
    }

    /** A new entity from the pool, holding the default material. */
    method CreateEntity() returns (id: EntityId)
      requires Valid()
      modifies this`entities, this`nextEntity
      ensures id !in old(entities)
      ensures entities == old(entities)[id := Entity(None, defaultMaterial, None, false)]
      ensures Valid()
    {
      id := nextEntity;
      entities := entities[id := Entity(None, defaultMaterial, None, false)];
      nextEntity := nextEntity + 1;
    }

    /** Returns the entity to the pool, with its material unless that is
        absent or the default one, and with its script if it has one. */
    method DestroyEntity(id: EntityId)
      requires id in entities
      modifies this`entities, this`materials, this`scripts
      ensures entities == old(entities) - {id}
      ensures var e := old(entities[id]);
              materials == if e.material.Some? && e.material != defaultMaterial
                           then old(materials) - {e.material.value} else old(materials)
      ensures var e := old(entities[id]);
              scripts == if e.script.Some? then old(scripts) - {e.script.value} else old(scripts)
    {
      var e := entities[id];
      if e.material.Some? && e.material != defaultMaterial {
        materials := materials - {e.material.value};
      }
      if e.script.Some? {
        scripts := scripts - {e.script.value};
      }
      entities := entities - {id};
    }

    method AddToRenderQueue(scene: SceneId)
      modifies this`renderQueue
      ensures renderQueue == old(renderQueue) + [scene]
    {
      renderQueue := renderQueue + [scene];
    }

    /** Erases the first queue entry for scene; false, with the queue
        unchanged, when there is none. */
    method RemoveFromRenderQueue(scene: SceneId) returns (found: bool)
      modifies this`renderQueue
      ensures found <==> scene in old(renderQueue)
      ensures renderQueue == RemoveFirst(old(renderQueue), scene)
    {
      var i := 0;
      while i < |renderQueue|
        invariant 0 <= i <= |renderQueue|
        invariant scene !in renderQueue[..i]
      {
        if renderQueue[i] == scene {
          IndexOfFirst(renderQueue, scene, i);
          RemoveFirstAt(renderQueue, scene);
          renderQueue := renderQueue[..i] + renderQueue[i + 1..];
          return true;
        }
        i := i + 1;
      }
      assert renderQueue[..i] == renderQueue;
      RemoveFirstAbsent(renderQueue, scene);
      return false;
    }

    method GetRenderQueueSize() returns (n: nat)
      ensures n == |renderQueue|
    {
      return |renderQueue|;
    }

    method GetRenderQueueScene(index: nat) returns (scene: SceneId)
      requires index < |renderQueue|
      ensures scene == renderQueue[index]
    {
      return renderQueue[index];
    }

    method SetViewport(x: nat, y: nat, w: nat, h: nat)
      modifies this`viewport
      ensures viewport == Viewport(x, y, w, h)
    {
      viewport := Viewport(x, y, w, h);
    }

    // -------------------------------------------------------------------
    // The frame

    /** What the frame loop reads of the pools. */
    function Pooled(): Pools
      reads this`scenes, this`entities, this`meshShaders, this`materials
    {
      Pools(scenes, entities, meshShaders, materials.Keys)
    }

    /** Every queued scene, and everything the loop dereferences, is in its
        pool. */
    ghost predicate Renderable()
      reads this`renderQueue, this`scenes, this`entities, this`meshShaders, this`materials
    {
      Pooled().QueueReady(renderQueue)
    }

    /** The state of every pooled material. */
    function MaterialStates(): (r: map<MaterialId, MaterialState>)
      reads this`materials, materials.Values
      ensures r.Keys == materials.Keys
    {
      map m | m in materials :: materials[m].State()
    }

    /** states holds the state of every pooled material. */
    ghost predicate StatesMatch(states: map<MaterialId, MaterialState>)
      reads this`materials, materials.Values
    {
      forall m :: m in materials ==> m in states && states[m] == materials[m].State()
    }

    /** One frame, returning the commands and calls it issues. Without a
        main camera the frame ends before the queue is read, so only a frame
        with one needs a renderable queue. */
    method RenderFrame() returns (events: seq<Event>)
      requires cameraMain.Some? ==> Renderable()
      modifies this`currentMesh, this`currentShader, this`currentMaterial
      ensures old(cameraMain).None? ==> events == [] && Current() == old(Current())
      ensures old(cameraMain).Some? ==>
                Trace(Current(), events) ==
                  old(FrameTrace(cameraMain, skyMain, viewport, Current(), Pooled().QueueSlots(renderQueue), MaterialStates()))
    {
      if cameraMain.None? {
        return [];
      }
      ghost var pools := Pooled();
      ghost var states := MaterialStates();
      assert StatesMatch(states);
      events := [GlViewport(viewport), ClearBuffers];
      if skyMain.Some? {
        events := events + [ClearColor(skyMain.value)];
      }
      if cameraMain.value.script.Some? {
        events := events + [UpdateScript(cameraMain.value.script.value)];
      }
      if cameraMain.value.useMouseLook {
        events := events + [MouseLook];
      }
      assert events == FramePrologue(cameraMain.value, skyMain, viewport);
      currentShader := None;
      var drawn := RenderQueue(pools, states);
      events := events + drawn + [SwapBuffers];
    }

    /** The loop over the render queue's scenes. */
    method RenderQueue(ghost pools: Pools, ghost states: map<MaterialId, MaterialState>) returns (events: seq<Event>)
      requires pools == Pooled() && StatesMatch(states) && pools.QueueReady(renderQueue)
      modifies this`currentMesh, this`currentShader, this`currentMaterial
      ensures Trace(Current(), events) == old(RunSlots(Current(), pools.QueueSlots(renderQueue), states))
    {
      ghost var whole := RunSlots(Current(), pools.QueueSlots(renderQueue), states);
      ghost var tail := whole;
      events := [];
      var i := 0;
      assert renderQueue[0..] == renderQueue;
      while i < |renderQueue|
        invariant 0 <= i <= |renderQueue|
        invariant pools == Pooled() && StatesMatch(states)
        invariant pools.QueueReady(renderQueue[i..])
        invariant tail == RunSlots(Current(), pools.QueueSlots(renderQueue[i..]), states)
        invariant whole == Trace(tail.bound, events + tail.events)
      {
        ghost var queue := renderQueue[i..];
        pools.QueueCons(queue);
        assert queue[1..] == renderQueue[i + 1..];
        ghost var slots := pools.SceneSlots(scenes[renderQueue[i]]);
        ghost var rest := pools.QueueSlots(queue[1..]);
        var step := RenderScene(scenes[renderQueue[i]], pools, slots, rest, states);
        tail := RunSlots(Current(), rest, states);
        AppendAssoc(events, step, tail.events);
        events := events + step;
        i := i + 1;
      }
      assert renderQueue[i..] == [];
    }

    /** The loop over one scene's entity queue; rest is what the frame visits
        after it. */
    method RenderScene(ids: seq<EntityId>, ghost pools: Pools, ghost slots: seq<ReadySlot>, ghost rest: seq<ReadySlot>,
                       ghost states: map<MaterialId, MaterialState>)
      returns (events: seq<Event>)
      requires pools == Pooled() && StatesMatch(states)
      requires pools.SceneReady(ids) && slots == pools.SceneSlots(ids)
      modifies this`currentMesh, this`currentShader, this`currentMaterial
      ensures pools == Pooled() && StatesMatch(states)
      ensures var r := RunSlots(Current(), rest, states);
              old(RunSlots(Current(), slots + rest, states)) == Trace(r.bound, events + r.events)
    {
      ghost var whole := RunSlots(Current(), slots + rest, states);
      ghost var tail := whole;
      events := [];
      var j := 0;
      assert slots[0..] + rest == slots + rest;
      while j < |ids|
        invariant 0 <= j <= |ids|
        invariant pools == Pooled() && StatesMatch(states)
        invariant tail == RunSlots(Current(), slots[j..] + rest, states)
        invariant whole == Trace(tail.bound, events + tail.events)
      {
        ghost var visits := slots[j..] + rest;
        assert visits[0] == slots[j] && visits[1..] == slots[j + 1..] + rest;
        RunSlotsCons(Current(), visits, states);
        var step := VisitEntity(ids[j], pools, slots[j], states);
        tail := RunSlots(Current(), slots[j + 1..] + rest, states);
        AppendAssoc(events, step, tail.events);
        events := events + step;
        j := j + 1;
      }
      assert slots[j..] + rest == rest;
    }

    /** One entity of the loop; slot is the entity as the loop sees it and
        states the materials' states. */
    method VisitEntity(id: EntityId, ghost pools: Pools, ghost slot: ReadySlot, ghost states: map<MaterialId, MaterialState>)
      returns (events: seq<Event>)
      requires pools == Pooled() && StatesMatch(states)
      requires id in entities && pools.EntityReady(entities[id]) && slot == pools.SlotOf(id)
      modifies this`currentMesh, this`currentShader, this`currentMaterial
      ensures pools == Pooled() && StatesMatch(states)
      ensures Trace(Current(), events) == SlotStep(old(Current()), slot, states)
    {
      ghost var b := Current();
      var e := entities[id];
      var script := if e.script.Some? then [UpdateScript(e.script.value)] else [];
      if e.mesh.None? {
        return script;
      }
      var mesh := e.mesh.value;
      var shaderOf := meshShaders[mesh];
      if shaderOf.None? {
        return script;
      }
      var shader := shaderOf.value;
      var meshStep := [];
      if currentMesh != Some(mesh) {
        meshStep := [BindMesh(mesh)];
      }
      var shaderStep := [];
      if currentShader != Some(shader) {
        shaderStep := [BindShader(shader), SetViewProjection(shader)];
      }
      var materialStep := [];
      if currentMaterial != e.material {
        materialStep := PushMaterial(e.material.value, shader);
      }
      var bodyStep := if e.hasRigidBody then [SyncRigidBody(id)] else [];
      assert materialStep == MaterialSwitch(b.material, slot.material, states, shader);
      Bind(Some(mesh), Some(shader), e.material, pools, states);
      events := script + meshStep + shaderStep + materialStep + bodyStep + [SetModelMatrix(shader, id), DrawIndexArray(mesh)];
    }

    /** Sets the current bindings; setting a binding to the value it
        already holds leaves it as it is. */
    method Bind(mesh: Option<MeshId>, shader: Option<ShaderId>, material: Option<MaterialId>,
                ghost pools: Pools, ghost states: map<MaterialId, MaterialState>)
      requires pools == Pooled() && StatesMatch(states)
      modifies this`currentMesh, this`currentShader, this`currentMaterial
      ensures Current() == Bound(mesh, shader, material)
      ensures pools == Pooled() && StatesMatch(states)
    {
      currentMesh, currentShader, currentMaterial := mesh, shader, material;
    }

    /** The material block for the material m and the bound shader. */
    method PushMaterial(m: MaterialId, shader: ShaderId) returns (events: seq<Event>)
      requires m in materials
      ensures events == MaterialEvents(m, materials[m].State(), shader)
    {
      var mat := materials[m];
      events := [BindMaterial(m)];
      if mat.doDepthTest {
        events := events + [Enable(DepthTest), DepthMask(mat.doDepthTest), DepthFunc(mat.depthFunc)];
      } else {
        events := events + [Disable(DepthTest)];
      }
      if mat.doFaceCulling {
        events := events + [Enable(CullFace), CullSide(mat.faceCullSide), FrontFace(mat.faceWinding)];
      } else {
        events := events + [Enable(CullFace)];
      }
      if mat.doBlending {
        events := events + [Enable(Blend), BlendFuncSeparate(mat.blendSource, mat.blendDestination,
                                                             mat.blendAlphaSource, mat.blendAlphaDestination)];
      } else {
        events := events + [Disable(Blend)];
      }
      events := events + [BindShader(shader), SetMaterialColor(shader, m), SetTextureSampler(shader, 0)];
    }
  }
}

# SandStorm engine core, modelled in Dafny

This project models the core of the SandStorm game engine, in five parts:

- **Game objects** (`gameobject.dfy`). A `GameObject` holds an ordered list of component handles and one cache slot per component kind. The invariant `Valid` says that each slot holds the payload of the one component of its kind in the list, or is empty when there is none. `AddComponent` and `RemoveComponent` keep it. `Activate`, `Deactivate` and `SetPosition` fan out over the cached components. The rigid-body forwarders append physics calls to the body and do nothing without one.
- **The engine** (`engine.dfy`). `EngineSystemManager` keeps:
  - the game-object pool, the active list and the component pools;
  - the stream buffer, rebuilt lazily when the dirty flag is set.

  Each frame, `Update` runs the per-object pass. An inactive object is skipped. The pass walks an active object's parent chain, adding positions and multiplying scales. A rigid body's position and orientation override the walked ones. The result is copied to the mesh renderer, actor, text layout, camera and light. The glyph layout of `AddMeshText` and `AddMeshSubSprite` is modelled too.
- **The renderer** (`rendersystem.dfy`). `RenderSystem` keeps the render queue, the entity, scene, mesh, material and script pools, and the current mesh, shader and material bindings. `RenderFrame` returns the GL commands and calls it issues, as a list of `Event`s. Its contract ties that list to `FrameTrace`, a function of the pools and the bindings. Lemmas about `FrameTrace` prove the batching:
  - exactly one draw per drawn entity, in queue order;
  - a bind only when the mesh, shader or material differs from the one bound last;
  - a shader bind per material switch.
- **Materials** (`material.dfy`). The `Material` defaults and the field setters. Each setter changes exactly its own fields.
- **String helpers** (`types.dfy`). These are `Explode`, the file-name helpers, `IsNumeric`, `Lowercase` and `Uppercase`.

`common.dfy` holds the shared vectors, the first-occurrence erase (`RemoveFirst`) and its lemmas. `components.dfy` holds the component payload classes and the component handle; these are record stand-ins for headers outside the model.

The model follows the code as written in these places:
- Both yaw lines at src/Engine/Engine.cpp:719-720 compare against +0.109655 (`YawLimit`).
- With culling disabled, the material block still enables `GL_CULL_FACE` (source/Renderer/RenderSystem.cpp:146; `CullingAlwaysEnabled`).
- Each material block ends by binding the current shader again (line 158).
- `GetExtFromFilename` returns the second '.'-segment, not the last.
- `GetPathFromFilename` joins the directory segments without separators.
- At the start of a frame only `currentShader` is reset (line 83). The mesh and material bindings carry over from the previous frame, so the first entity of a frame rebinds them only if they differ from the last frame's. The lemmas state this against the bindings the frame starts from.

## Model

| member | source | states |
|---|---|---|
| `Common.RemoveFirstAt` | source/Renderer/RenderSystem.cpp:237-246 | erasing the first match is cutting the list at the first index holding the value |
| `Common.RemoveFirstAbsent` | source/Renderer/RenderSystem.cpp:237-246 | erasing an absent value leaves the list as it is |
| `Common.RemoveFirstMultiset` | source/Renderer/RenderSystem.cpp:237-246 | the erase takes away exactly one copy of the value when present and keeps every other element |
| `Common.RemoveFirstLength` | src/Engine/Engine.cpp:44-50 | the erase shortens the list by one exactly when the value occurs in it |
| `Common.RemoveFirstDistinct` | src/Engine/Engine.cpp:44-50 | erasing from a duplicate-free list keeps it duplicate-free and removes the value altogether |
| `Common.IndexOfFirst` | src/Engine/components/gameobject.cpp:80-142 | a position holding the value with no earlier copy is the index the linear search finds |
| `StringTypes.Tokenize` | src/Types/Types.cpp:47-53 | the getline loop yields only non-empty tokens free of the delimiter |
| `StringTypes.Explode` | src/Types/Types.cpp:43-55 | every token is non-empty and contains no delimiter |
| `StringTypes.ConcatExplode` | src/Types/Types.cpp:43-55 | the tokens concatenated are the input with every delimiter removed, so order is kept |
| `StringTypes.JoinExplode` | src/Types/Types.cpp:43-55 | the tokens joined with the delimiter are the input with delimiter runs collapsed and leading and trailing delimiters dropped |
| `StringTypes.ExplodeJoin` | src/Types/Types.cpp:43-55 | non-empty, delimiter-free tokens come back unchanged from Explode after Join |
| `StringTypes.GetNameFromFilename` | src/Types/Types.cpp:57-60 | the result is the last non-empty '/'-segment: it ends the collapsed path and is preceded by '/' or nothing |
| `StringTypes.GetNameFromFilenameNoExt` | src/Types/Types.cpp:62-66 | the result is the first '.'-segment of the file name, free of '.' and '/' |
| `StringTypes.GetExtFromFilename` | src/Types/Types.cpp:68-72 | the result is the second '.'-segment of the file name, not the last |
| `StringTypes.GetPathFromFilename` | src/Types/Types.cpp:74-80 | the result followed by the file name is the input without any '/', so directories are joined without separators |
| `StringTypes.IsNumeric` | src/Types/Types.cpp:82-85 | true exactly when every character is a decimal digit, so true for the empty string |
| `StringTypes.NulIndex` | src/Types/Types.cpp:88 | the index where the loop stops is the first NUL, or the length |
| `StringTypes.LowerCasedAt` | src/Types/Types.cpp:87-92 | non-letters are kept, characters before the first NUL lose upper case, and characters after it are kept |
| `StringTypes.LowerCasedIdempotent` | src/Types/Types.cpp:87-92 | lower-casing twice equals lower-casing once |
| `StringTypes.UpperCasedIdempotent` | src/Types/Types.cpp:94-99 | upper-casing twice equals upper-casing once |
| `StringTypes.Lowercase` | src/Types/Types.cpp:87-92 | the array becomes LowerCased of its old contents, and the result is true |
| `StringTypes.Uppercase` | src/Types/Types.cpp:94-99 | the array becomes UpperCased of its old contents, and the result is true |
| `Materials.Material.constructor` | src/Renderer/components/material.cpp:7-40 | a new material is in the default state: depth test, culling and shadow pass on, blending off, depth LESS, CCW winding, back faces culled, no shader, opaque colours |
| `Materials.Material.EnableDepthTest` | src/Renderer/components/material.cpp:47 | sets doDepthTest and leaves every other field |
| `Materials.Material.DisableDepthTest` | src/Renderer/components/material.cpp:48 | clears doDepthTest and leaves every other field |
| `Materials.Material.SetDepthFunction` | src/Renderer/components/material.cpp:49 | overwrites depthFunc only |
| `Materials.Material.GetTextureFiltration` | src/Renderer/components/material.cpp:51 | returns the filtration field |
| `Materials.Material.SetTextureFiltration` | src/Renderer/components/material.cpp:52 | overwrites textureFiltration only |
| `Materials.Material.SetThenGetTextureFiltration` | src/Renderer/components/material.cpp:51-52 | reading the filtration back after setting it gives the value set |
| `Materials.Material.EnableCulling` | src/Renderer/components/material.cpp:54 | sets doFaceCulling only |
| `Materials.Material.DisableCulling` | src/Renderer/components/material.cpp:55 | clears doFaceCulling only |
| `Materials.Material.SetFaceCullingSide` | src/Renderer/components/material.cpp:56 | overwrites faceCullSide only |
| `Materials.Material.SetFaceWindingOrder` | src/Renderer/components/material.cpp:57 | overwrites faceWinding only |
| `Materials.Material.EnableBlending` | src/Renderer/components/material.cpp:59 | sets doBlending only |
| `Materials.Material.DisableBlending` | src/Renderer/components/material.cpp:60 | clears doBlending only |
| `Materials.Material.SetBlending` | src/Renderer/components/material.cpp:61 | sets the colour blend factors and keeps the alpha factors |
| `Materials.Material.SetBlendingAlpha` | src/Renderer/components/material.cpp:62 | sets the alpha blend factors only |
| `Materials.Material.SetBlendingFunction` | src/Renderer/components/material.cpp:63 | overwrites blendFunction only |
| `Materials.Material.EnableShadowPass` | src/Renderer/components/material.cpp:65 | sets doShadowPass only |
| `Materials.Material.DisableShadowPass` | src/Renderer/components/material.cpp:66 | clears doShadowPass only |
| `Components.Mesh.AddPlain` | src/Engine/Engine.cpp:334-341 | the quad is appended to the mesh's quads |
| `Components.Mesh.ClearSubMeshes` | src/Engine/Engine.cpp:694 | the mesh holds no quads afterwards |
| `Components.Mesh.UploadToGPU` | src/Engine/Engine.cpp:289 | the upload count grows by one |
| `GameObjects.SlotOfCount` | src/Engine/components/gameobject.cpp:26-142 | a kind has a first component exactly when the list holds one of that kind |
| `GameObjects.SlotOfUnique` | src/Engine/components/gameobject.cpp:144-146 | when a kind occurs at most once, its slot is that component's payload |
| `GameObjects.SlotOfAppend` | src/Engine/components/gameobject.cpp:26-78 | appending fills the new kind's slot if it was empty, keeps every other slot, and adds one to that kind's count |
| `GameObjects.SlotOfRemove` | src/Engine/components/gameobject.cpp:80-142 | erasing the first copy of a handle takes one component of its kind away and keeps the other kinds' slots |
| `GameObjects.MaskBits` | src/Engine/components/gameobject.cpp:340-350 | the layer narrowed to 16 bits: in [0, 65536) and congruent to the layer |
| `GameObjects.GameObject.constructor` | src/Engine/components/gameobject.cpp:4-19 | a new object is active, has render distance -1, no components and every cache empty |
| `GameObjects.GameObject.AddComponent` | src/Engine/components/gameobject.cpp:26-78 | appends the handle, fills its kind's empty slot (Script has none), keeps the other slots, points an attached body's user data at the object, and keeps Valid |
| `GameObjects.GameObject.RemoveComponent` | src/Engine/components/gameobject.cpp:80-142 | true exactly when the handle was listed; erases its first copy, empties its kind's slot, resets a detached body's user data, and changes nothing when absent |
| `GameObjects.GameObject.GetComponentIndex` | src/Engine/components/gameobject.cpp:144-146 | returns the handle at the index, whose kind's slot holds its payload |
| `GameObjects.GameObject.GetComponentCount` | src/Engine/components/gameobject.cpp:148-150 | returns the length of the component list |
| `GameObjects.GameObject.GetPosition` | src/Engine/components/gameobject.cpp:157-159 | returns the cached transform's position |
| `GameObjects.GameObject.SetPosition` | src/Engine/components/gameobject.cpp:161-187 | the transform and each attached body, renderer, camera, actor and light take the position; absent ones are skipped |
| `GameObjects.GameObject.PropagateActive` | src/Engine/components/gameobject.cpp:189-263 | every attached script, rigid body, mesh renderer, light and actor gets the given active flag |
| `GameObjects.GameObject.Activate` | src/Engine/components/gameobject.cpp:189-225 | the object becomes active with render distance -1, and so do its scripts, bodies, renderers, lights and actors |
| `GameObjects.GameObject.Deactivate` | src/Engine/components/gameobject.cpp:227-263 | the object becomes inactive with render distance -1, and so do its scripts, bodies, renderers, lights and actors |
| `GameObjects.GameObject.Forward` | src/Engine/components/gameobject.cpp:265-423 | with a body the calls are appended to it; without one nothing changes |
| `GameObjects.GameObject.AddForce` | src/Engine/components/gameobject.cpp:265-277 | the force is applied at the centre of mass when a body is attached |
| `GameObjects.GameObject.AddTorque` | src/Engine/components/gameobject.cpp:279-291 | the torque is applied when a body is attached |
| `GameObjects.GameObject.SetMass` | src/Engine/components/gameobject.cpp:293-296 | the mass is set when a body is attached |
| `GameObjects.GameObject.SetLinearDamping` | src/Engine/components/gameobject.cpp:298-301 | the linear damping is set when a body is attached |
| `GameObjects.GameObject.SetAngularDamping` | src/Engine/components/gameobject.cpp:303-306 | the angular damping is set when a body is attached |
| `GameObjects.GameObject.EnableGravity` | src/Engine/components/gameobject.cpp:308-311 | gravity is switched on when a body is attached |
| `GameObjects.GameObject.DisableGravity` | src/Engine/components/gameobject.cpp:313-316 | gravity is switched off when a body is attached |
| `GameObjects.GameObject.CalculatePhysics` | src/Engine/components/gameobject.cpp:318-324 | mass, centre of mass and inertia are recomputed from the colliders, in that order, when a body is attached |
| `GameObjects.GameObject.SetLinearAxisLockFactor` | src/Engine/components/gameobject.cpp:326-331 | the linear lock factor is set when a body is attached |
| `GameObjects.GameObject.SetAngularAxisLockFactor` | src/Engine/components/gameobject.cpp:333-338 | the angular lock factor is set when a body is attached |
| `GameObjects.GameObject.AddColliderBox` | src/Engine/components/gameobject.cpp:340-350 | a box collider at the offset with the 16-bit mask is added when a body is attached |
| `GameObjects.GameObject.AddColliderCapsule` | src/Engine/components/gameobject.cpp:352-362 | a capsule collider at the offset with the 16-bit mask is added when a body is attached |
| `GameObjects.GameObject.AddColliderSphere` | src/Engine/components/gameobject.cpp:364-374 | a sphere collider at the offset with the 16-bit mask is added when a body is attached |
| `GameObjects.GameObject.AddColliderFromTag` | src/Engine/components/gameobject.cpp:376-391 | the body is made static or dynamic as the tag says, then the tag's collider is added |
| `GameObjects.GameObject.AddColliderFromMesh` | src/Engine/components/gameobject.cpp:393-405 | the mesh's height-field collider is added when a body is attached |
| `GameObjects.GameObject.SetStatic` | src/Engine/components/gameobject.cpp:407-411 | the body becomes static when attached |
| `GameObjects.GameObject.SetDynamic` | src/Engine/components/gameobject.cpp:413-417 | the body becomes dynamic when attached |
| `GameObjects.GameObject.SetKinematic` | src/Engine/components/gameobject.cpp:419-423 | the body becomes kinematic when attached |
| `GameObjects.GameObject.SetUserData` | src/Engine/components/gameobject.cpp:425-428 | stores the user-data reference |
| `GameObjects.GameObject.GetUserData` | src/Engine/components/gameobject.cpp:430-432 | returns the stored user-data reference |
| `Engine.Half` | src/Engine/Engine.cpp:650 | C++ halving truncates toward zero: the remainder is 0 or 1 in magnitude, with the sign of the input |
| `Engine.AnchorZRightEdge` | src/Engine/Engine.cpp:626-633 | right-anchored text ends canvas.x font sizes past the viewport width whatever its length; each extra character moves the start left by one font size |
| `Engine.AnchorZShift` | src/Engine/Engine.cpp:626-653 | in every horizontal mode one canvas unit moves the text by one font size |
| `Engine.AnchorYShift` | src/Engine/Engine.cpp:660-689 | in every vertical mode one canvas unit moves the text by one font size |
| `Engine.YawLimit` | src/Engine/Engine.cpp:719-720 | as written, the yaw is shifted by -0.109655, 0 or +0.109655, and any yaw at or above zero comes out at 0.109655 or more |
| `Engine.PitchClamp` | src/Engine/Engine.cpp:723-724 | the pitch is clamped to [-0.0274, 0.0274], and a pitch already inside is kept |
| `Engine.LookUpdate` | src/Engine/Engine.cpp:712-724 | after one mouse-look step the pitch lies in [-0.0274, 0.0274] |
| `Engine.LookAtCentre` | src/Engine/Engine.cpp:712-724 | a cursor on the display centre keeps a pitch that is inside the limits |
| `Engine.GridWidth` | src/Engine/Engine.cpp:320-332 | an atlas row holds at least one cell |
| `Engine.CellOfBounds` | src/Engine/Engine.cpp:320-332 | a cell handed out lies inside the grid, and row * width + column is the glyph index |
| `Engine.CellOfCapacity` | src/Engine/Engine.cpp:320-332 | no cell exactly when the index is at least width times the number of rows |
| `Engine.CellOfInjective` | src/Engine/Engine.cpp:320-332 | two non-negative indices share a cell only when they are equal |
| `Engine.AtlasCell` | src/Engine/Engine.cpp:317-332 | the column/row walk, wrapping the column past mapWidth and stopping past mapHeight, computes CellOf |
| `Engine.CharCode` | src/Engine/Engine.cpp:287 | a character passed as an int index is its signed 8-bit value, and ASCII characters keep their code |
| `Engine.TextQuadsShape` | src/Engine/Engine.cpp:280-344 | a string yields at most one quad per character, exactly one when every glyph fits the atlas, each showing a cell inside the grid |
| `Engine.AddMeshSubSprite` | src/Engine/Engine.cpp:294-344 | appends the glyph's quad to the renderer's mesh; nothing without a mesh, a Text component or a cell |
| `Engine.AddMeshText` | src/Engine/Engine.cpp:280-292 | appends one glyph per character, character i at xPos + i, then uploads once; nothing without a mesh |
| `Engine.WalkSumsPositions` | src/Engine/Engine.cpp:524-531 | the walked position is the object's own plus the sum of its ancestors' positions |
| `Engine.WalkMultipliesScales` | src/Engine/Engine.cpp:524-531 | the walked scale is the object's own times the componentwise product of its ancestors' scales |
| `Engine.WalkRoot` | src/Engine/Engine.cpp:521-524 | an object without a parent keeps its own transform |
| `Engine.WalkParents` | src/Engine/Engine.cpp:514-531 | the while loop over parent links computes Walk over the object's parent chain |
| `Engine.SyncEntry` | src/Engine/Engine.cpp:514-743 | one active slot (`Synced` from the walked parent chain): the object takes its pose, and renderer, actor, body, text, camera and light get what the walked or body transform dictates |
| `Engine.SyncWalked` | src/Engine/Engine.cpp:533-743 | `Synced` from a given walked transform: the same step once the parent chain has been walked |
| `Engine.SyncMotion` | src/Engine/Engine.cpp:543-611 | the rigid body overrides position and orientation; the renderer gets the matrix, and the transform only without a body; an active actor with a body takes the position and pushes its velocity |
| `Engine.SyncViews` | src/Engine/Engine.cpp:618-743 | text anchoring and glyph layout, the camera's look angle and position, and the light's position and direction from the current transform |
| `Engine.SyncBody` | src/Engine/Engine.cpp:543-568 | with a body the object's position and orientation become the body's and the matrix is the body's scaled by the object's scale; without one nothing changes |
| `Engine.SyncRenderer` | src/Engine/Engine.cpp:574-584 | the renderer always gets the matrix, and position, orientation and scale only without a body |
| `Engine.SyncActor` | src/Engine/Engine.cpp:591-611 | an active actor on an object with a body takes the position, and its velocity is applied to the body as a force |
| `Engine.LayoutText` | src/Engine/Engine.cpp:618-697 | the object's z and y take the anchored offsets, the mesh is cleared, and the text's glyphs are added |
| `Engine.SyncCamera` | src/Engine/Engine.cpp:703-734 | with mouse look the angle takes one LookUpdate step; the camera orientation takes the look angle and its position the current one |
| `Engine.SyncLight` | src/Engine/Engine.cpp:740-743 | the light takes the current position and the Euler angles of the current orientation |
| `Engine.Entries` | src/Engine/Engine.cpp:488-500 | slot k holds object k and its six caches |
| `Engine.EngineSystemManager.Pass` | src/Engine/Engine.cpp:482-502 | a dirty buffer is rebuilt from the pool and a clean one is used as it stands, one slot per pool object |
| `Engine.EngineSystemManager.PassObjects` | src/Engine/Engine.cpp:488-511 | slot k of the pass belongs to pool object k |
| `Engine.EngineSystemManager.constructor` | src/Engine/Engine.cpp:25-31 | empty pools, a dirty stream and a stream size of zero |
| `Engine.EngineSystemManager.CreateGameObject` | src/Engine/Engine.cpp:33-38 | a fresh default object is added to the pool and appended to the active list, and the stream is marked dirty |
| `Engine.EngineSystemManager.DestroyGameObject` | src/Engine/Engine.cpp:40-64 | erases the first active-list entry, frees each supported component and the object, marks the stream dirty and returns true |
| `Engine.EngineSystemManager.EraseActive` | src/Engine/Engine.cpp:43-50 | the search-and-erase removes the object's first active-list entry only |
| `Engine.EngineSystemManager.DestroyComponentsOf` | src/Engine/Engine.cpp:52-58 | every supported handle of the object, and its payload, leave their pools |
| `Engine.EngineSystemManager.GetGameObject` | src/Engine/Engine.cpp:346-350 | the active object at the index, and null exactly past the end |
| `Engine.EngineSystemManager.GetGameObjectCount` | src/Engine/Engine.cpp:352-354 | the pool size |
| `Engine.EngineSystemManager.GetComponentCount` | src/Engine/Engine.cpp:356-358 | the handle pool size |
| `Engine.EngineSystemManager.CreateComponent` | src/Engine/Engine.cpp:371-417 | non-null exactly for a supported kind; the handle has that kind and a new payload from that kind's pool only; an unsupported kind allocates nothing |
| `Engine.EngineSystemManager.DestroyComponent` | src/Engine/Engine.cpp:419-469 | true exactly for a supported kind; handle and payload leave their pools, no other pool changes, and an unsupported kind frees nothing |
| `Engine.EngineSystemManager.RebuildStream` | src/Engine/Engine.cpp:481-502 | a dirty buffer's first slots become the pass, the flag is cleared, and the stream size is the pool size |
| `Engine.EngineSystemManager.Update` | src/Engine/Engine.cpp:471-749 | after the rebuild the buffer holds the pass; inactive objects keep their transforms |
| `Engine.EngineSystemManager.RunPass` | src/Engine/Engine.cpp:509-746 | every slot is stepped in order, and inactive objects keep their transforms |
| `Engine.EngineSystemManager.Step` | src/Engine/Engine.cpp:509-745 | an active slot gets the whole per-object step (`Synced`: object transform, renderer matrix and transform, actor, body force, text mesh, camera look and position, light) from its walked transform; for an inactive slot nothing the pass may write changes; no other object's transform changes |
| `Render.ChangesAtMostLength` | source/Renderer/RenderSystem.cpp:110-114 | a list never has more binds on change than entries |
| `Render.ChangesOfRepeated` | source/Renderer/RenderSystem.cpp:110-114 | consecutive entries sharing one value bind it at most once, and not at all when it is already bound |
| `Render.ChangesCons` | source/Renderer/RenderSystem.cpp:110-114 | an entry binds when it differs from the one bound, then is the bound one |
| `Render.CountAppend` | source/Renderer/RenderSystem.cpp:87-183 | the events of one kind in a concatenation are the sum of the parts' |
| `Render.DrawnMeshesAppend` | source/Renderer/RenderSystem.cpp:87-183 | the draws of a concatenation are the parts' draws, in order |
| `Render.StepCount` | source/Renderer/RenderSystem.cpp:98-161 | per entity: an entity without mesh or shader binds nothing; otherwise mesh, shader and material binds each on change, and a shader bind per material switch |
| `Render.StepDraws` | source/Renderer/RenderSystem.cpp:98-183 | per entity: one draw of its mesh when it has a mesh with a shader, else none |
| `Render.PiecesDrawNothing` | source/Renderer/RenderSystem.cpp:98-165 | the script update, the binds and the rigid-body sync issue no draw |
| `Render.MaterialEventsCount` | source/Renderer/RenderSystem.cpp:125-161 | the material block binds the material once and the shader once, and binds no mesh |
| `Render.MaterialEventsDrawNothing` | source/Renderer/RenderSystem.cpp:125-161 | the material block issues no draw |
| `Render.CullingAlwaysEnabled` | source/Renderer/RenderSystem.cpp:138-146 | the material block always enables and never disables face culling; it sets the cull side exactly when culling is on |
| `Render.RunDraws` | source/Renderer/RenderSystem.cpp:87-183 | exactly one draw per drawn entity, in visiting order |
| `Render.RunMeshBinds` | source/Renderer/RenderSystem.cpp:110-114 | mesh binds equal the changes in the drawn entities' meshes, starting from the bound mesh |
| `Render.RunShaderBinds` | source/Renderer/RenderSystem.cpp:117-122 | view-projection pushes equal the changes in the drawn entities' shaders, starting from the bound shader |
| `Render.RunMaterialBinds` | source/Renderer/RenderSystem.cpp:125-161 | material blocks equal the changes in the drawn entities' materials, starting from the bound material |
| `Render.RunShaderRebinds` | source/Renderer/RenderSystem.cpp:117-158 | every shader bind is a shader switch or the rebind at the end of a material block |
| `Render.FrameWithoutCamera` | source/Renderer/RenderSystem.cpp:55-56 | without a main camera a frame issues nothing and keeps the bindings |
| `Render.FrameDraws` | source/Renderer/RenderSystem.cpp:53-195 | with a camera, a frame issues one draw per drawn entity of the queued scenes, in queue order |
| `Render.FrameBinds` | source/Renderer/RenderSystem.cpp:83-161 | mesh and material bind on change from the previous frame's bindings, and the shader on change from none, so a frame with a drawn entity binds a shader at least once |
| `Render.FrameKindCount` | source/Renderer/RenderSystem.cpp:58-76 | the prologue and the buffer swap bind nothing |
| `Render.RunSlotsCons` | source/Renderer/RenderSystem.cpp:91-183 | a run is its first entity's step followed by the rest |
| `Render.RenderSystem.constructor` | source/Renderer/RenderSystem.cpp:3-17 | empty render queue, no current mesh, shader or material, and no main camera |
| `Render.RenderSystem.CreateEntity` | source/Renderer/RenderSystem.cpp:20-24 | a new entity holding the default material, with no mesh and no script |
| `Render.RenderSystem.DestroyEntity` | source/Renderer/RenderSystem.cpp:25-29 | the entity leaves the pool; its material is freed only when present and not the default, and its script only when present |
| `Render.RenderSystem.AddToRenderQueue` | source/Renderer/RenderSystem.cpp:233-235 | the scene is appended to the queue |
| `Render.RenderSystem.RemoveFromRenderQueue` | source/Renderer/RenderSystem.cpp:237-246 | true exactly when the scene was queued; its first entry is erased, and the queue is unchanged otherwise |
| `Render.RenderSystem.GetRenderQueueSize` | source/Renderer/RenderSystem.cpp:248-250 | the queue's length |
| `Render.RenderSystem.GetRenderQueueScene` | source/Renderer/RenderSystem.cpp:252-254 | the scene at the index |
| `Render.RenderSystem.SetViewport` | source/Renderer/RenderSystem.cpp:349-354 | the viewport becomes the four values |
| `Render.RenderSystem.MaterialStates` | source/Renderer/RenderSystem.cpp:125-161 | the state of every pooled material, keyed by the pool's ids |
| `Render.RenderSystem.RenderFrame` | source/Renderer/RenderSystem.cpp:53-195 | without a main camera no event is issued and the bindings are kept, whatever the queue holds; with one, the events issued and the bindings left are FrameTrace of the pools and the bindings the frame starts from |
| `Render.RenderSystem.RenderQueue` | source/Renderer/RenderSystem.cpp:87-187 | the scene loop issues RunSlots over the queued scenes' entities |
| `Render.RenderSystem.RenderScene` | source/Renderer/RenderSystem.cpp:91-185 | the entity loop issues RunSlots over the scene's entities, continuing into the later scenes |
| `Render.RenderSystem.VisitEntity` | source/Renderer/RenderSystem.cpp:95-183 | one entity issues SlotStep from the bindings before it |
| `Render.RenderSystem.Bind` | source/Renderer/RenderSystem.cpp:110-127 | the bindings become the entity's mesh, shader and material, and nothing else changes |
| `Render.RenderSystem.PushMaterial` | source/Renderer/RenderSystem.cpp:125-161 | the material block for a material's current state and the bound shader |

## Left out

- Floating-point arithmetic is modelled with `real`, without rounding. Screen offsets in text anchoring are computed on signed, unbounded `int`s. This takes `Text::size` and the viewport fields as signed; their declarations are not part of this model. If they are unsigned, `size * -canvas.y` at src/Engine/Engine.cpp:674 wraps around for `canvas.y > 0` before the conversion to float, and the model does not capture that.
- Matrices, quaternion products, `glm` and `EulerAngles` are kept symbolic: a `Matrix` datatype and an uninterpreted `EulerAnglesOf`.
- OpenGL, Win32 and ReactPhysics3D calls become data. The renderer returns the list of events it issues, and a rigid body records the calls made on it. The cursor position is a parameter of the pass.
- Script `OnUpdate` and `OnCreate` are recorded as events; their bodies are callbacks outside the model.
- The pool allocator's internals are not modelled. Pools are sets, maps or an ordered list of live entries.
- `Initiate` (src/Engine/Engine.cpp:360-369), `Shutdown`, the factory helpers (`CreateCameraController`, `CreateSky`, `CreateAIActor`, `CreateOverlay*`, `CreateComponentMeshRenderer`, `CreateComponentLight`) and the renderer's `Create*`/`Destroy*` pool wrappers are not modelled: they are wiring on top of the modelled operations.
- The AI player-position update at the start of `Update` (src/Engine/Engine.cpp:473-479) is not modelled; it calls into the actor system.
- `GetGLErrorCodes`, `SetRenderTarget`, `ReleaseRenderTarget` and `CalculateModelMatrix` are not modelled. The model matrix becomes `SetModelMatrix(shader, entity)`.
- The material's texture buffer and its `color` field are not modelled. The renderer reads the colour at source/Renderer/RenderSystem.cpp:159 and `Initiate` writes the default material's at line 204, but material.cpp never initialises it. The colour push is therefore an event carrying the material id.
- `skyMain` is never initialised in the source. `defaultMaterial` is set only by the renderer's `Initiate` (source/Renderer/RenderSystem.cpp:203), which is not modelled. The model starts both at `None`, so `CreateEntity` hands out `None` until something sets the default.
- Engine.EngineSystemManager.CreateGameObject: the stream buffer is a fixed array, so the model requires room for one more object. The source has no such bound and would write past the buffer.
- Render.RenderSystem.RenderFrame: with a main camera, requires every queued scene, every entity in it and every mesh it uses to be pooled, and every drawn entity to hold a pooled material (`ReadySlot`, `EntityReady`). Without a camera nothing is required, as the source returns before reading the queue (source/Renderer/RenderSystem.cpp:55-56). The source dereferences the scene, entity and mesh references unchecked. One case is excluded where the source does not fail: a frame with a camera that meets a drawn entity without a material while no material is bound. There the test at source/Renderer/RenderSystem.cpp:125 is false, nothing is dereferenced and the entity is drawn. The model does not cover that frame. Such entities are common, because `defaultMaterial` starts at `None` here.
- Engine.EngineSystemManager.Update: the effect per slot is stated by `Step` through `Synced`: everything an active slot's step writes, and nothing written for an inactive slot. Over the whole pass, `Update` states only the stream rebuild and that inactive objects keep their transforms. Two slots may share a component, so a later slot can overwrite what an earlier one wrote, and the per-slot effects do not add up to a whole-pass statement without a disjointness assumption the source does not make. The pass may write only a footprint given as a ghost parameter.
- Engine.EngineSystemManager.RunPass: like `Update`, states the per-slot effect only through `Step`, for the same reason.
- Engine.AddMeshText and Engine.AddMeshSubSprite: require the object to have a cached mesh renderer. The source dereferences `GetComponent<MeshRenderer>()` unchecked (src/Engine/Engine.cpp:282, 296), so an object without one is outside the model.
- Engine.SyncEntry, Engine.SyncWalked and Engine.EngineSystemManager.Step: require `TextReady` for a text slot with a renderer: the renderer has a mesh, and the object has a cached renderer. The source calls `meshRenderer->mesh->ClearSubMeshes()` unchecked (src/Engine/Engine.cpp:694), then `AddMeshText` on the object.
- Engine.CharCode and Engine.AddMeshText: text is a `seq<char>` in which each character stands for one byte of the source's `std::string`. A multi-byte UTF-8 character, which the source walks as several bytes and several glyphs, is one character here. Characters above 255 are reduced modulo 256.
- Engine.EngineSystemManager.DestroyGameObject: the components are freed but not detached from the destroyed object's list, as in the source. The model does not follow the freed object further.
- Engine.Walk requires the parent chain to end; a cyclic parent chain would loop forever in the source.
- StringTypes.GetNameFromFilename: requires at least one '/'-segment, where the source indexes past an empty vector. The same holds for the extension helpers, which need one or two '.'-segments.
- `To*`, `ToString` and the `Lerp` helpers of src/Types/Types.cpp are not modelled; they rely on library formatting and floating point.

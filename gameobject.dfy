/** GameObject (src/Engine/components/gameobject.cpp): an ordered list of
    component handles plus one cache slot per component kind, kept in step
    by AddComponent and RemoveComponent; the fan-out of Activate, Deactivate
    and SetPosition over the cached components; and the rigid-body
    forwarders, which do nothing when no body is attached. */
module GameObjects {
  import opened Common
  import opened Components

  /** Every kind but Script has a cache slot in a GameObject. */
  predicate HasSlot(t: ComponentType)
  {
    t != ScriptType
  }

  /** The payload of the first component of kind t in cs. */
  function SlotOf(cs: seq<Component>, t: ComponentType): Option<Payload>
  {
    if cs == [] then None
    else if cs[0].payload.Type() == t then Some(cs[0].payload)
    else SlotOf(cs[1..], t)
  }

  /** How many components of kind t cs holds. */
  function CountOf(cs: seq<Component>, t: ComponentType): nat
  {
    if cs == [] then 0
    else (if cs[0].payload.Type() == t then 1 else 0) + CountOf(cs[1..], t)
  }

  /** SlotOf finds a payload exactly when there is a component of that kind,
      and what it finds is of that kind. */
  lemma {:induction false} SlotOfCount(cs: seq<Component>, t: ComponentType)
    ensures SlotOf(cs, t).None? <==> CountOf(cs, t) == 0
    ensures SlotOf(cs, t).Some? ==> SlotOf(cs, t).value.Type() == t
  {
    if cs != [] {
      SlotOfCount(cs[1..], t);
    }
  }

  /** When a kind occurs at most once, its slot is that one component's payload. */
  lemma {:induction false} SlotOfUnique(cs: seq<Component>, i: nat, t: ComponentType)
    requires i < |cs| && cs[i].payload.Type() == t && CountOf(cs, t) <= 1
    ensures SlotOf(cs, t) == Some(cs[i].payload)
  {
    if i > 0 {
      if cs[0].payload.Type() == t {
        SlotOfCount(cs[1..], t);
        assert cs[1..][i - 1] == cs[i];
        SlotOfUnique(cs[1..], i - 1, t);
        assert false;
      }
      assert cs[1..][i - 1] == cs[i];
      SlotOfUnique(cs[1..], i - 1, t);
    }
  }

  /** Appending a handle fills its kind's slot if empty and leaves every
      other slot as it was. */
  lemma {:induction false} SlotOfAppend(cs: seq<Component>, c: Component, t: ComponentType)
    ensures SlotOf(cs + [c], t) ==
            if SlotOf(cs, t).Some? then SlotOf(cs, t)
            else if c.payload.Type() == t then Some(c.payload) else None
    ensures CountOf(cs + [c], t) == CountOf(cs, t) + if c.payload.Type() == t then 1 else 0
  {
    if cs == [] {
      assert cs + [c] == [c];
    } else {
      assert (cs + [c])[1..] == cs[1..] + [c];
      SlotOfAppend(cs[1..], c, t);
    }
  }

  /** Erasing the first copy of a handle takes one component of its kind
      away and leaves the slots of the other kinds as they were. */
  lemma {:induction false} SlotOfRemove(cs: seq<Component>, c: Component, t: ComponentType)
    ensures CountOf(RemoveFirst(cs, c), t) + (if c in cs && c.payload.Type() == t then 1 else 0) == CountOf(cs, t)
    ensures c.payload.Type() != t ==> SlotOf(RemoveFirst(cs, c), t) == SlotOf(cs, t)
  {
    if cs != [] && cs[0] != c {
      SlotOfRemove(cs[1..], c, t);
      assert RemoveFirst(cs, c)[1..] == RemoveFirst(cs[1..], c);
    }
  }

  /** Scripts, rigid bodies, mesh renderers, lights and actors among cs:
      the kinds whose active flag Activate and Deactivate set. */
  function ScriptsIn(cs: seq<Component>): set<Script>
  {
    set c | c in cs && c.payload.ScriptP? :: c.payload.script
  }

  function BodiesIn(cs: seq<Component>): set<RigidBody>
  {
    set c | c in cs && c.payload.RigidBodyP? :: c.payload.rigidBody
  }

  function RenderersIn(cs: seq<Component>): set<MeshRenderer>
  {
    set c | c in cs && c.payload.MeshRendererP? :: c.payload.meshRenderer
  }

  function LightsIn(cs: seq<Component>): set<Light>
  {
    set c | c in cs && c.payload.LightP? :: c.payload.light
  }

  function ActorsIn(cs: seq<Component>): set<Actor>
  {
    set c | c in cs && c.payload.ActorP? :: c.payload.actor
  }

  /** A collider description: its shape and whether the body becomes static. */
  datatype ColliderTag = ColliderTag(isStatic: bool, colliderShape: ShapeId)

  datatype MeshCollider = MeshCollider(heightFieldShape: ShapeId)

  /** A layer mask narrowed to the 16-bit collision mask (unsigned short). */
  function MaskBits(layer: int): (m: int)
    ensures 0 <= m < 0x1_0000
    ensures (m - layer) % 0x1_0000 == 0
  {
    layer % 0x1_0000
  }

  class GameObject {
    var name: seq<char>
    var isActive: bool
    var renderDistance: int
    var transform: Pose
    var parent: GameObject?
    var userData: object?
    var components: seq<Component>

    var transformCache: Transform?
    var cameraCache: Camera?
    var rigidBodyCache: RigidBody?
    var meshRendererCache: MeshRenderer?
    var lightCache: Light?
    var actorCache: Actor?
    var textCache: Text?
    var panelCache: Panel?

    /** The cache slot of kind t, as a payload. */
    function Cache(t: ComponentType): Option<Payload>
      reads this
    {
      match t
      case TransformType => if transformCache == null then None else Some(TransformP(transformCache))
      case MeshRendererType => if meshRendererCache == null then None else Some(MeshRendererP(meshRendererCache))
      case CameraType => if cameraCache == null then None else Some(CameraP(cameraCache))
      case LightType => if lightCache == null then None else Some(LightP(lightCache))
      case ScriptType => None
      case RigidBodyType => if rigidBodyCache == null then None else Some(RigidBodyP(rigidBodyCache))
      case ActorType => if actorCache == null then None else Some(ActorP(actorCache))
      case TextType => if textCache == null then None else Some(TextP(textCache))
      case PanelType => if panelCache == null then None else Some(PanelP(panelCache))
    }

    /** Each slot holds the payload of the one component of its kind in the
        list, or is empty when the list has none. */
    ghost predicate Valid()
      reads this
    {
      forall t: ComponentType | HasSlot(t) ::
        Cache(t) == SlotOf(components, t) && CountOf(components, t) <= 1
    }

    /** An unnamed, active object with no components and no cached component. */
    constructor ()
      ensures name == [] && isActive && renderDistance == -1 && components == []
      ensures forall t :: Cache(t) == None
      ensures Valid()
    {
      name, isActive, renderDistance := [], true, -1;
      components := [];
      transformCache, cameraCache, rigidBodyCache, meshRendererCache := null, null, null, null;
      lightCache, actorCache, textCache, panelCache := null, null, null, null;
    }

    /** Points the slot of p's kind at p (Script has no slot). */
    method FillSlot(p: Payload)
      modifies this`transformCache, this`cameraCache, this`rigidBodyCache,
               this`meshRendererCache, this`lightCache, this`actorCache, this`textCache,
               this`panelCache
      ensures HasSlot(p.Type()) ==> Cache(p.Type()) == Some(p)
      ensures forall t | t != p.Type() :: Cache(t) == old(Cache(t))
    {
      match p {
        case TransformP(t) => transformCache := t;
        case RigidBodyP(b) => rigidBodyCache := b;
        case MeshRendererP(m) => meshRendererCache := m;
        case CameraP(cam) => cameraCache := cam;
        case LightP(l) => lightCache := l;
        case ActorP(a) => actorCache := a;
        case TextP(tx) => textCache := tx;
        case PanelP(pn) => panelCache := pn;
        case ScriptP(_) =>
      }
    }

    /** Empties the slot of kind t. */
    method ClearSlot(t: ComponentType)
      modifies this`transformCache, this`cameraCache, this`rigidBodyCache,
               this`meshRendererCache, this`lightCache, this`actorCache, this`textCache,
               this`panelCache
      ensures Cache(t) == None
      ensures forall u | u != t :: Cache(u) == old(Cache(u))
    {
      match t {
        case TransformType => transformCache := null;
        case MeshRendererType => meshRendererCache := null;
        case RigidBodyType => rigidBodyCache := null;
        case CameraType => cameraCache := null;
        case LightType => lightCache := null;
        case ActorType => actorCache := null;
        case TextType => textCache := null;
        case PanelType => panelCache := null;
        case ScriptType =>
      }
    }

    /** Appends the handle and fills its kind's slot, which must be empty;
        an attached rigid body gets this object as its user data. */
    method AddComponent(c: Component)
      requires Valid()
      requires HasSlot(c.GetType()) ==> Cache(c.GetType()) == None
      modifies this`components, this`transformCache, this`cameraCache, this`rigidBodyCache,
               this`meshRendererCache, this`lightCache, this`actorCache, this`textCache,
               this`panelCache, BodyOf(c.payload)`userData
      ensures components == old(components) + [c]
      ensures HasSlot(c.GetType()) ==> Cache(c.GetType()) == Some(c.payload)
      ensures forall t | t != c.GetType() :: Cache(t) == old(Cache(t))
      ensures forall b | b in BodyOf(c.payload) :: b.userData == this
      ensures Valid()
    {
      components := components + [c];
      FillSlot(c.payload);
      if c.payload.RigidBodyP? {
        c.payload.rigidBody.userData := this;
      }
      forall t: ComponentType | HasSlot(t)
        ensures Cache(t) == SlotOf(components, t) && CountOf(components, t) <= 1
      {
        SlotOfAppend(old(components), c, t);
        SlotOfCount(old(components), t);
      }
    }

    /** Erases the first entry identical to c and empties its kind's slot;
        a detached rigid body loses its user data. Reports whether c was
        found; when it was not, nothing changes. */
    method RemoveComponent(c: Component) returns (removed: bool)
      requires Valid()
      modifies this`components, this`transformCache, this`cameraCache, this`rigidBodyCache,
               this`meshRendererCache, this`lightCache, this`actorCache, this`textCache,
               this`panelCache, BodyOf(c.payload)`userData
      ensures removed == (c in old(components))
      ensures components == RemoveFirst(old(components), c)
      ensures removed && HasSlot(c.GetType()) ==> Cache(c.GetType()) == None
      ensures forall t | !removed || t != c.GetType() :: Cache(t) == old(Cache(t))
      ensures forall b | b in BodyOf(c.payload) :: b.userData == if removed then null else old(b.userData)
      ensures Valid()
    {
      var i := 0;
      while i < |components| && components[i] != c
        invariant 0 <= i <= |components|
        invariant c !in components[..i]
      {
        i := i + 1;
      }
      if i == |components| {
        assert components[..i] == components;
        RemoveFirstAbsent(components, c);
        return false;
      }
      IndexOfFirst(components, c, i);
      RemoveFirstAt(components, c);
      forall t: ComponentType
        ensures CountOf(RemoveFirst(components, c), t) + (if c.payload.Type() == t then 1 else 0) == CountOf(components, t)
        ensures c.payload.Type() != t ==> SlotOf(RemoveFirst(components, c), t) == SlotOf(components, t)
      {
        SlotOfRemove(components, c, t);
      }
      components := components[..i] + components[i + 1..];
      if c.payload.RigidBodyP? {
        c.payload.rigidBody.userData := null;
      }
      ClearSlot(c.GetType());
      SlotOfCount(components, c.payload.Type());
      return true;
    }

    /** The handle at a list position; when the object is consistent, its
        kind's slot holds that handle's payload. */
    method GetComponentIndex(index: nat) returns (c: Component)
      requires index < |components|
      ensures c == components[index]
      ensures Valid() && HasSlot(c.GetType()) ==> Cache(c.GetType()) == Some(c.payload)
    {
      c := components[index];
      if Valid() && HasSlot(c.GetType()) {
        SlotOfUnique(components, index, c.GetType());
      }
    }

    method GetComponentCount() returns (count: nat)
      ensures count == |components|
    {
      count := |components|;
    }

    /** The position held by the cached Transform component. */
    method GetPosition() returns (p: Vec3)
      requires transformCache != null
      ensures p == transformCache.position
    {
      p := transformCache.position;
    }

    /** Writes p into the cached Transform and mirrors it into every cached
        component that has a position: the rigid body, the mesh renderer's
        and the camera's transforms, the actor and the light. Components
        that are not attached are skipped; nothing else changes. */
    method SetPosition(p: Vec3)
      requires transformCache != null
      modifies transformCache`position, BodySet(rigidBodyCache)`position,
               RendererSet(meshRendererCache)`transform, CameraSet(cameraCache)`transform,
               ActorSet(actorCache)`position, LightSet(lightCache)`position
      ensures transformCache.position == p
      ensures rigidBodyCache != null ==> rigidBodyCache.position == p
      ensures meshRendererCache != null ==>
                meshRendererCache.transform == old(meshRendererCache.transform).(position := p)
      ensures cameraCache != null ==> cameraCache.transform == old(cameraCache.transform).(position := p)
      ensures actorCache != null ==> actorCache.position == p
      ensures lightCache != null ==> lightCache.position == p
    {
      transformCache.position := p;
      if rigidBodyCache != null {
        rigidBodyCache.position := p;
      }
      if meshRendererCache != null {
        meshRendererCache.transform := meshRendererCache.transform.(position := p);
      }
      if cameraCache != null {
        cameraCache.transform := cameraCache.transform.(position := p);
      }
      if actorCache != null {
        actorCache.position := p;
      }
      if lightCache != null {
        lightCache.position := p;
      }
    }

    /** Sets the active flag of every attached script, rigid body, mesh
        renderer, light and actor to v; other kinds are untouched. */
    method PropagateActive(v: bool)
      modifies ScriptsIn(components)`isActive, BodiesIn(components)`isActive,
               RenderersIn(components)`isActive, LightsIn(components)`isActive,
               ActorsIn(components)`active
      ensures forall s | s in ScriptsIn(components) :: s.isActive == v
      ensures forall b | b in BodiesIn(components) :: b.isActive == v
      ensures forall m | m in RenderersIn(components) :: m.isActive == v
      ensures forall l | l in LightsIn(components) :: l.isActive == v
      ensures forall a | a in ActorsIn(components) :: a.active == v
    {
      var i := 0;
      while i < |components|
        invariant 0 <= i <= |components|
        invariant forall s | s in ScriptsIn(components[..i]) :: s.isActive == v
        invariant forall b | b in BodiesIn(components[..i]) :: b.isActive == v
        invariant forall m | m in RenderersIn(components[..i]) :: m.isActive == v
        invariant forall l | l in LightsIn(components[..i]) :: l.isActive == v
        invariant forall a | a in ActorsIn(components[..i]) :: a.active == v
      {
        var c := components[i];
        assert components[..i + 1] == components[..i] + [c];
        match c.payload {
          case ScriptP(s) => s.isActive := v;
          case RigidBodyP(b) => b.isActive := v;
          case MeshRendererP(m) => m.isActive := v;
          case LightP(l) => l.isActive := v;
          case ActorP(a) => a.active := v;
          case _ =>
        }
        i := i + 1;
      }
      assert components[..i] == components;
    }

    /** Marks the object active, resets its render distance to -1 and
        activates every attached script, rigid body, mesh renderer, light
        and actor. */
    method Activate()
      modifies this`isActive, this`renderDistance,
               ScriptsIn(components)`isActive, BodiesIn(components)`isActive,
               RenderersIn(components)`isActive, LightsIn(components)`isActive,
               ActorsIn(components)`active
      ensures isActive && renderDistance == -1
      ensures forall s | s in ScriptsIn(components) :: s.isActive
      ensures forall b | b in BodiesIn(components) :: b.isActive
      ensures forall m | m in RenderersIn(components) :: m.isActive
      ensures forall l | l in LightsIn(components) :: l.isActive
      ensures forall a | a in ActorsIn(components) :: a.active
    {
      renderDistance := -1;
      isActive := true;
      PropagateActive(true);
    }

    /** Marks the object inactive, resets its render distance to -1 and
        deactivates every attached script, rigid body, mesh renderer, light
        and actor. */
    method Deactivate()
      modifies this`isActive, this`renderDistance,
               ScriptsIn(components)`isActive, BodiesIn(components)`isActive,
               RenderersIn(components)`isActive, LightsIn(components)`isActive,
               ActorsIn(components)`active
      ensures !isActive && renderDistance == -1
      ensures forall s | s in ScriptsIn(components) :: !s.isActive
      ensures forall b | b in BodiesIn(components) :: !b.isActive
      ensures forall m | m in RenderersIn(components) :: !m.isActive
      ensures forall l | l in LightsIn(components) :: !l.isActive
      ensures forall a | a in ActorsIn(components) :: !a.active
    {
      renderDistance := -1;
      isActive := false;
      PropagateActive(false);
    }

    /** Makes the given calls on the attached rigid body; with no body
        attached the frame is empty and nothing changes. */
    method Forward(calls: seq<PhysicsCall>)
      modifies BodySet(rigidBodyCache)`calls
      ensures rigidBodyCache != null ==> rigidBodyCache.calls == old(rigidBodyCache.calls) + calls
    {
      if rigidBodyCache == null {
        return;
      }
      rigidBodyCache.calls := rigidBodyCache.calls + calls;
    }

    method AddForce(force: Vec3)
      modifies BodySet(rigidBodyCache)`calls
      ensures rigidBodyCache != null ==>
                rigidBodyCache.calls == old(rigidBodyCache.calls) + [ApplyLocalForceAtCenterOfMass(force)]
    {
      Forward([ApplyLocalForceAtCenterOfMass(force)]);
    }

    method AddTorque(torque: Vec3)
      modifies BodySet(rigidBodyCache)`calls
      ensures rigidBodyCache != null ==>
                rigidBodyCache.calls == old(rigidBodyCache.calls) + [ApplyLocalTorque(torque)]
    {
      Forward([ApplyLocalTorque(torque)]);
    }

    method SetMass(mass: real)
      modifies BodySet(rigidBodyCache)`calls
      ensures rigidBodyCache != null ==> rigidBodyCache.calls == old(rigidBodyCache.calls) + [PhysicsCall.SetMass(mass)]
    {
      Forward([PhysicsCall.SetMass(mass)]);
    }

    method SetLinearDamping(damping: real)
      modifies BodySet(rigidBodyCache)`calls
      ensures rigidBodyCache != null ==>
                rigidBodyCache.calls == old(rigidBodyCache.calls) + [PhysicsCall.SetLinearDamping(damping)]
    {
      Forward([PhysicsCall.SetLinearDamping(damping)]);
    }

    method SetAngularDamping(damping: real)
      modifies BodySet(rigidBodyCache)`calls
      ensures rigidBodyCache != null ==>
                rigidBodyCache.calls == old(rigidBodyCache.calls) + [PhysicsCall.SetAngularDamping(damping)]
    {
      Forward([PhysicsCall.SetAngularDamping(damping)]);
    }

    method EnableGravity()
      modifies BodySet(rigidBodyCache)`calls
      ensures rigidBodyCache != null ==>
                rigidBodyCache.calls == old(rigidBodyCache.calls) + [PhysicsCall.EnableGravity(true)]
    {
      Forward([PhysicsCall.EnableGravity(true)]);
    }

    method DisableGravity()
      modifies BodySet(rigidBodyCache)`calls
      ensures rigidBodyCache != null ==>
                rigidBodyCache.calls == old(rigidBodyCache.calls) + [PhysicsCall.EnableGravity(false)]
    {
      Forward([PhysicsCall.EnableGravity(false)]);
    }

    /** Recomputes mass, centre of mass and inertia tensor from the colliders, in that order. */
    method CalculatePhysics()
      modifies BodySet(rigidBodyCache)`calls
      ensures rigidBodyCache != null ==>
                rigidBodyCache.calls == old(rigidBodyCache.calls) +
                  [UpdateMassFromColliders, UpdateLocalCenterOfMassFromColliders,
                   UpdateLocalInertiaTensorFromColliders]
    {
      Forward([UpdateMassFromColliders, UpdateLocalCenterOfMassFromColliders,
               UpdateLocalInertiaTensorFromColliders]);
    }

    method SetLinearAxisLockFactor(factor: Vec3)
      modifies BodySet(rigidBodyCache)`calls
      ensures rigidBodyCache != null ==>
                rigidBodyCache.calls == old(rigidBodyCache.calls) + [SetLinearLockAxisFactor(factor)]
    {
      Forward([SetLinearLockAxisFactor(factor)]);
    }

    method SetAngularAxisLockFactor(factor: Vec3)
      modifies BodySet(rigidBodyCache)`calls
      ensures rigidBodyCache != null ==>
                rigidBodyCache.calls == old(rigidBodyCache.calls) + [SetAngularLockAxisFactor(factor)]
    {
      Forward([SetAngularLockAxisFactor(factor)]);
    }

    /** Box, capsule and sphere colliders: a collider of that shape at the
        given offset, colliding with the layer narrowed to 16 bits. */
    method AddColliderBox(boxShape: ShapeId, offset: Vec3, layer: int)
      modifies BodySet(rigidBodyCache)`calls
      ensures rigidBodyCache != null ==>
                rigidBodyCache.calls == old(rigidBodyCache.calls) + [AddCollider(boxShape, offset, MaskBits(layer))]
    {
      Forward([AddCollider(boxShape, offset, MaskBits(layer))]);
    }

    method AddColliderCapsule(capsuleShape: ShapeId, offset: Vec3, layer: int)
      modifies BodySet(rigidBodyCache)`calls
      ensures rigidBodyCache != null ==>
                rigidBodyCache.calls == old(rigidBodyCache.calls) + [AddCollider(capsuleShape, offset, MaskBits(layer))]
    {
      Forward([AddCollider(capsuleShape, offset, MaskBits(layer))]);
    }

    method AddColliderSphere(sphereShape: ShapeId, offset: Vec3, layer: int)
      modifies BodySet(rigidBodyCache)`calls
      ensures rigidBodyCache != null ==>
                rigidBodyCache.calls == old(rigidBodyCache.calls) + [AddCollider(sphereShape, offset, MaskBits(layer))]
    {
      Forward([AddCollider(sphereShape, offset, MaskBits(layer))]);
    }

    /** A collider from a tag: the body first becomes static or dynamic as
        the tag says. The tag must be present once a body is attached. */
    method AddColliderFromTag(colliderTag: Option<ColliderTag>, offset: Vec3, layer: int)
      requires rigidBodyCache != null ==> colliderTag.Some?
      modifies BodySet(rigidBodyCache)`calls
      ensures rigidBodyCache != null ==>
                rigidBodyCache.calls == old(rigidBodyCache.calls) +
                  [SetType(if colliderTag.value.isStatic then Static else Dynamic),
                   AddCollider(colliderTag.value.colliderShape, offset, MaskBits(layer))]
    {
      if rigidBodyCache == null {
        return;
      }
      var tag := colliderTag.value;
      var bodyType := if tag.isStatic then Static else Dynamic;
      Forward([SetType(bodyType), AddCollider(tag.colliderShape, offset, MaskBits(layer))]);
    }

    method AddColliderFromMesh(meshCollider: MeshCollider, offset: Vec3, layer: int)
      modifies BodySet(rigidBodyCache)`calls
      ensures rigidBodyCache != null ==>
                rigidBodyCache.calls == old(rigidBodyCache.calls) +
                  [AddCollider(meshCollider.heightFieldShape, offset, MaskBits(layer))]
    {
      Forward([AddCollider(meshCollider.heightFieldShape, offset, MaskBits(layer))]);
    }

    method SetStatic()
      modifies BodySet(rigidBodyCache)`calls
      ensures rigidBodyCache != null ==> rigidBodyCache.calls == old(rigidBodyCache.calls) + [SetType(Static)]
    {
      Forward([SetType(Static)]);
    }

    method SetDynamic()
      modifies BodySet(rigidBodyCache)`calls
      ensures rigidBodyCache != null ==> rigidBodyCache.calls == old(rigidBodyCache.calls) + [SetType(Dynamic)]
    {
      Forward([SetType(Dynamic)]);
    }

    method SetKinematic()
      modifies BodySet(rigidBodyCache)`calls
      ensures rigidBodyCache != null ==> rigidBodyCache.calls == old(rigidBodyCache.calls) + [SetType(Kinematic)]
    {
      Forward([SetType(Kinematic)]);
    }

    method SetUserData(ptr: object?)
      modifies this`userData
      ensures userData == ptr
    {
      userData := ptr;
    }

    method GetUserData() returns (ptr: object?)
      ensures ptr == userData
    {
      ptr := userData;
    }
  }
}

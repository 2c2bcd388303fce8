/** The component kinds a GameObject can carry, and the payload objects each
    kind points at. A Component handle pairs a kind with one payload object
    (the engine's Component::SetComponent(type, payload)); the kind is read
    off the payload, so a handle can never change kind. Only the fields the
    engine core reads or writes are modelled. */
module Components {
  import opened Common

  datatype ComponentType =
    | TransformType | MeshRendererType | CameraType | LightType | ScriptType
    | RigidBodyType | ActorType | TextType | PanelType

  /** Opaque identity of a collision shape owned by the physics library. */
  type ShapeId = nat

  datatype BodyType = Static | Kinematic | Dynamic

  /** One call made on a physics body, recorded in the order it was made. */
  datatype PhysicsCall =
    | ApplyLocalForceAtCenterOfMass(force: Vec3)
    | ApplyLocalTorque(torque: Vec3)
    | SetMass(mass: real)
    | SetLinearDamping(linearDamping: real)
    | SetAngularDamping(angularDamping: real)
    | EnableGravity(enabled: bool)
    | UpdateMassFromColliders
    | UpdateLocalCenterOfMassFromColliders
    | UpdateLocalInertiaTensorFromColliders
    | SetLinearLockAxisFactor(linearFactor: Vec3)
    | SetAngularLockAxisFactor(angularFactor: Vec3)
    | SetType(bodyType: BodyType)
      /** addCollider(shape, offset) followed by setCollideWithMaskBits(mask) on the new collider */
    | AddCollider(shape: ShapeId, offset: Vec3, mask: int)

  /** A physics-library rigid body: its transform, its user-data back
      reference, its active flag and the log of every other call made on it. */
  class RigidBody {
    var isActive: bool
    var userData: object?
    var position: Vec3
    var orientation: Quat
    var calls: seq<PhysicsCall>

    constructor ()
      ensures calls == []
    {
      calls := [];
    }
  }

  class Transform {
    var position: Vec3
    var orientation: Quat
    var scale: Vec3

    constructor ()
    {
    }
  }

  /** One textured quad added to a mesh by Mesh::AddPlain. */
  datatype Quad = Quad(
    x: real, y: real, z: real,
    width: real, height: real,
    color: Color,
    spriteWidth: real, spriteHeight: real,
    spriteStartX: real, spriteStartY: real,
    column: int, row: int)

  /** A mesh, as the list of quads it holds and how many times it has been
      uploaded to the GPU. */
  class Mesh {
    var subMeshes: seq<Quad>
    var uploads: nat

    constructor ()
      ensures subMeshes == [] && uploads == 0
    {
      subMeshes, uploads := [], 0;
    }

    method AddPlain(q: Quad)
      modifies this`subMeshes
      ensures subMeshes == old(subMeshes) + [q]
    {
      subMeshes := subMeshes + [q];
    }

    method ClearSubMeshes()
      modifies this`subMeshes
      ensures subMeshes == []
    {
      subMeshes := [];
    }

    method UploadToGPU()
      modifies this`uploads
      ensures uploads == old(uploads) + 1
    {
      uploads := uploads + 1;
    }
  }

  class MeshRenderer {
    var isActive: bool
    var mesh: Mesh?
    var transform: Pose
    var matrix: Matrix

    constructor ()
    {
    }
  }

  datatype Vec2 = Vec2(x: real, y: real)

  class Camera {
    var useMouseLook: bool
    var lookAngle: Vec2
    var mouseSensitivityYaw: real
    var mouseSensitivityPitch: real
    var transform: Pose

    constructor ()
    {
    }
  }

  /** Euler angles of an orientation, kept symbolic. */
  datatype EulerAngles = EulerAnglesOf(orientation: Quat)

  class Light {
    var isActive: bool
    var position: Vec3
    var direction: EulerAngles

    constructor ()
    {
    }
  }

  /** An AI actor: the fields the engine sets and reads each frame. */
  class Actor {
    var active: bool
    var position: Vec3
    var velocity: Vec3

    constructor ()
    {
    }
  }

  class Script {
    var isActive: bool

    constructor ()
    {
    }
  }

  /** Where a text element sits on screen, in font-size units. */
  datatype Canvas = Canvas(
    x: int, y: int,
    anchorRight: bool, anchorCenterHorz: bool,
    anchorTop: bool, anchorCenterVert: bool)

  /** Layout of a glyph atlas: one cell's size and origin in texture space,
      and the highest column and row index of the grid. */
  datatype SpriteAtlas = SpriteAtlas(
    subSpriteX: real, subSpriteY: real,
    subSpriteWidth: real, subSpriteHeight: real,
    width: int, height: int)

  class Text {
    var text: seq<char>
    var size: nat
    var canvas: Canvas
    var glyphWidth: real
    var glyphHeight: real
    var color: Color
    var sprite: SpriteAtlas
    var width: real
    var height: real

    constructor ()
    {
    }
  }

  class Panel {
    constructor ()
    {
    }
  }

  /** The object a component handle points at, tagged by kind. */
  datatype Payload =
    | TransformP(transform: Transform)
    | MeshRendererP(meshRenderer: MeshRenderer)
    | CameraP(camera: Camera)
    | LightP(light: Light)
    | ScriptP(script: Script)
    | RigidBodyP(rigidBody: RigidBody)
    | ActorP(actor: Actor)
    | TextP(text: Text)
    | PanelP(panel: Panel)
  {
    function Type(): ComponentType
    {
      match this
      case TransformP(_) => TransformType
      case MeshRendererP(_) => MeshRendererType
      case CameraP(_) => CameraType
      case LightP(_) => LightType
      case ScriptP(_) => ScriptType
      case RigidBodyP(_) => RigidBodyType
      case ActorP(_) => ActorType
      case TextP(_) => TextType
      case PanelP(_) => PanelType
    }
  }

  /** A component handle: a kind and the payload it owns. */
  class Component {
    const payload: Payload

    constructor (p: Payload)
      ensures payload == p
    {
      payload := p;
    }

    function GetType(): ComponentType
    {
      payload.Type()
    }
  }

  // Frames for optional references: the referenced object, or nothing.

  function BodySet(b: RigidBody?): set<RigidBody> { if b == null then {} else {b} }
  function TransformSet(t: Transform?): set<Transform> { if t == null then {} else {t} }
  function RendererSet(m: MeshRenderer?): set<MeshRenderer> { if m == null then {} else {m} }
  function CameraSet(c: Camera?): set<Camera> { if c == null then {} else {c} }
  function LightSet(l: Light?): set<Light> { if l == null then {} else {l} }
  function ActorSet(a: Actor?): set<Actor> { if a == null then {} else {a} }
  function MeshSet(m: Mesh?): set<Mesh> { if m == null then {} else {m} }

  /** The rigid body a payload points at, if it is one. */
  function BodyOf(p: Payload): set<RigidBody>
  {
    if p.RigidBodyP? then {p.rigidBody} else {}
  }
}

/** Scene values shared by the chunk assembly and the debug overlay:
    vectors, vertices, model builders, GPU models and game objects. */
module GameObjects {

  datatype Option<T> = None | Some(value: T)

  /** The range of a C++ `uint32_t`. */
  const U32_MODULUS: int := 0x1_0000_0000
  type u32 = x: int | 0 <= x < 0x1_0000_0000

  /** `n` cast to `uint32_t`: arithmetic modulo 2^32. */
  function Wrap32(n: int): (r: u32)
    ensures 0 <= n < U32_MODULUS ==> r == n
    ensures (r - n) % U32_MODULUS == 0
  {
    n % U32_MODULUS
  }

  /** glm vectors; their components are only copied, never computed with. */
  datatype Vec2 = Vec2(x: real, y: real)
  datatype Vec3 = Vec3(x: real, y: real, z: real)

  const Origin: Vec3 := Vec3(0.0, 0.0, 0.0)
  const Red: Vec3 := Vec3(1.0, 0.0, 0.0)

  /** One vertex of a model builder's vertex list. */
  datatype Vertex = Vertex(position: Vec3, color: Vec3, normal: Vec3, uv: Vec2)

  /** `VulkanEngineModel::Builder`: the vertex and index lists a model is built from. */
  datatype Builder = Builder(vertices: seq<Vertex>, indices: seq<u32>)

  /** A GPU model. Its buffers are not modelled: it records the builder lists it was
      created from, so its vertex and index counts are their lengths. */
  datatype Model = Model(vertices: seq<Vertex>, indices: seq<u32>)
  {
    function VertexCount(): nat { |vertices| }
    function IndexCount(): nat { |indices| }
  }

  datatype RenderMode = Filled | Wireframe | Both

  datatype Transform = Transform(translation: Vec3, scale: Vec3, rotation: Vec3)

  /** A scene entity; `model` is `None` where the source holds a null model pointer. */
  datatype GameObject = GameObject(
    id: nat,
    transform: Transform,
    model: Option<Model>,
    color: Vec3,
    isActive: bool,
    isWireFrame: bool,
    renderMode: RenderMode)

  /** The scene: `GameObject::Map`, from id to object. */
  type ObjectMap = map<nat, GameObject>
}

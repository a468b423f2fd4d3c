/**
 * The scene catalog of the raytracer: fixed-capacity tables of spheres,
 * planes, axis-aligned boxes and materials, with their counts.
 *
 * SceneData is the value snapshot of those tables (the class in scene.dfy
 * keeps them in arrays). Floating-point fields are exact reals: the model
 * does not capture rounding.
 */
module Catalog {

  const MaxSpheres: nat := 16
  const MaxPlanes: nat := 16
  const MaxBoxes: nat := 16
  const MaxMaterials: nat := 8

  /** Material type codes; a slot whose type is Unused holds no material. */
  const Lambertian: int := 0
  const Metal: int := 1
  const Unused: int := -1

  datatype Vec3 = Vec3(x: real, y: real, z: real)
  datatype Vec4 = Vec4(x: real, y: real, z: real, w: real)

  datatype Material = Material(albedo: Vec3, roughness: real, kind: int)
  datatype Sphere = Sphere(position: Vec4, radius: real, materialIndex: int)
  datatype Plane = Plane(a: Vec4, b: Vec4, c: Vec4, materialIndex: int)
  datatype Box = Box(minPoint: Vec4, maxPoint: Vec4, materialIndex: int)

  datatype SceneData = SceneData(
    spheres: seq<Sphere>,
    planes: seq<Plane>,
    boxes: seq<Box>,
    materials: seq<Material>,
    sphereNum: int,
    planeNum: int,
    boxNum: int)

  /** Every table has its fixed capacity and the sphere count indexes into its table. */
  predicate WellFormed(d: SceneData) {
    && |d.spheres| == MaxSpheres
    && |d.planes| == MaxPlanes
    && |d.boxes| == MaxBoxes
    && |d.materials| == MaxMaterials
    && 0 <= d.sphereNum <= MaxSpheres
  }

  const Zero3: Vec3 := Vec3(0.0, 0.0, 0.0)
  const Zero4: Vec4 := Vec4(0.0, 0.0, 0.0, 0.0)

  /** Default-constructed records. Fields the C++ structs leave uninitialised are 0 here. */
  const DefaultMaterial: Material := Material(Zero3, 0.0, Unused)
  const DefaultSphere: Sphere := Sphere(Zero4, 0.0, 0)
  const DefaultPlane: Plane := Plane(Zero4, Zero4, Zero4, 0)
  const DefaultBox: Box := Box(Zero4, Zero4, 0)

  /**
   * Number of occupied material slots: the length of the prefix of slots
   * whose type is not Unused. The first Unused slot ends the prefix.
   */
  function UsedMaterials(ms: seq<Material>): (k: nat)
    ensures k <= |ms|
    ensures forall i :: 0 <= i < k ==> ms[i].kind != Unused
    ensures k < |ms| ==> ms[k].kind == Unused
  {
    if ms == [] || ms[0].kind == Unused then 0 else 1 + UsedMaterials(ms[1..])
  }

  /** A freshly constructed catalog: no occupied material slot and no sphere. */
  function EmptyScene(): (d: SceneData)
    ensures WellFormed(d)
    ensures d.sphereNum == 0 && d.planeNum == 0 && d.boxNum == 0
    ensures UsedMaterials(d.materials) == 0
    ensures forall i :: 0 <= i < MaxMaterials ==> d.materials[i].kind == Unused
  {
    SceneData(
      seq(MaxSpheres, _ => DefaultSphere),
      seq(MaxPlanes, _ => DefaultPlane),
      seq(MaxBoxes, _ => DefaultBox),
      seq(MaxMaterials, _ => DefaultMaterial),
      0, 0, 0)
  }
}

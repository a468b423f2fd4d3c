/**
 * The scene text format and the meaning of reading it.
 *
 * A scene file is seen by the loader as a sequence of whitespace-separated
 * tokens. Save writes one directive per line:
 *   material <albedo.x> <albedo.y> <albedo.z> <type> <roughness>
 *   sphere <position.x> <position.y> <position.z> <radius> <material index>
 * Numbers are exact tokens: a FloatText prints and parses back to the same
 * real. Run is the reference definition of the load loop; the imperative
 * loop in scene.dfy is proved equal to it.
 */
module SceneFile {
  import opened Catalog

  datatype Option<T> = None | Some(value: T)

  /**
   * A whitespace-separated token: a number as the stream would parse it, or
   * any other word. A Word's text is never a number.
   */
  datatype Token = Word(text: string) | FloatText(number: real) | IntText(integer: int)

  const MaterialKeyword: string := "material"
  const SphereKeyword: string := "sphere"

  /** The two directive keywords; every other token is skipped by the loader. */
  predicate IsKeyword(t: Token) {
    t == Word(MaterialKeyword) || t == Word(SphereKeyword)
  }

  /** One line of a saved file, holding exactly the fields that are printed. */
  datatype Directive =
    | MaterialLine(albedo: Vec3, kind: int, roughness: real)
    | SphereLine(center: Vec3, radius: real, materialIndex: int)

  function MaterialLineOf(m: Material): Directive {
    MaterialLine(m.albedo, m.kind, m.roughness)
  }

  /** The position's w component is not printed. */
  function SphereLineOf(s: Sphere): Directive {
    SphereLine(Vec3(s.position.x, s.position.y, s.position.z), s.radius, s.materialIndex)
  }

  function LineTokens(l: Directive): seq<Token> {
    match l
    case MaterialLine(a, k, r) =>
      [Word(MaterialKeyword), FloatText(a.x), FloatText(a.y), FloatText(a.z), IntText(k), FloatText(r)]
    case SphereLine(c, r, mi) =>
      [Word(SphereKeyword), FloatText(c.x), FloatText(c.y), FloatText(c.z), FloatText(r), IntText(mi)]
  }

  /** The token stream a reader sees in a file made of these lines. */
  function Text(lines: seq<Directive>): (ts: seq<Token>)
    ensures |ts| == 6 * |lines|
  {
    if lines == [] then [] else LineTokens(lines[0]) + Text(lines[1..])
  }

  function MaterialLines(ms: seq<Material>): seq<Directive> {
    seq(|ms|, i requires 0 <= i < |ms| => MaterialLineOf(ms[i]))
  }

  function SphereLines(ss: seq<Sphere>): seq<Directive> {
    seq(|ss|, i requires 0 <= i < |ss| => SphereLineOf(ss[i]))
  }

  /** The lines Save writes for a catalog: the occupied materials, then the counted spheres. */
  function SavedLines(d: SceneData): seq<Directive>
    requires WellFormed(d)
  {
    MaterialLines(d.materials[..UsedMaterials(d.materials)]) + SphereLines(d.spheres[..d.sphereNum])
  }

  // ---------------------------------------------------------------------
  // Extraction of numbers, as a C++11 input stream does it

  /** A float extraction accepts a float or an integer token. */
  function FloatOf(t: Token): Option<real> {
    match t
    case FloatText(v) => Some(v)
    case IntText(n) => Some(n as real)
    case Word(_) => None
  }

  /** An integer extraction accepts an integer token only. */
  function IntOf(t: Token): Option<int> {
    match t
    case IntText(n) => Some(n)
    case _ => None
  }

  /** A value read from the stream and whether the stream is still good. */
  datatype Field<T> = Field(value: T, good: bool)

  /**
   * Extracts the float at index `at`. A stream that has already failed, or
   * that is at the end of input, leaves `current` in place; a token that is
   * not a number stores 0 and fails the stream.
   */
  function ExtractFloat(ts: seq<Token>, at: nat, good: bool, current: real): (f: Field<real>)
    ensures f.good <==> good && at < |ts| && FloatOf(ts[at]).Some?
    ensures f.good ==> f.value == FloatOf(ts[at]).value
    ensures !good || at >= |ts| ==> f.value == current
    ensures good && at < |ts| && FloatOf(ts[at]).None? ==> f.value == 0.0
  {
    if !good || at >= |ts| then Field(current, false)
    else match FloatOf(ts[at])
      case Some(v) => Field(v, true)
      case None => Field(0.0, false)
  }

  /** The integer counterpart of ExtractFloat. */
  function ExtractInt(ts: seq<Token>, at: nat, good: bool, current: int): (f: Field<int>)
    ensures f.good <==> good && at < |ts| && IntOf(ts[at]).Some?
    ensures f.good ==> f.value == IntOf(ts[at]).value
    ensures !good || at >= |ts| ==> f.value == current
    ensures good && at < |ts| && IntOf(ts[at]).None? ==> f.value == 0
  {
    if !good || at >= |ts| then Field(current, false)
    else match IntOf(ts[at])
      case Some(v) => Field(v, true)
      case None => Field(0, false)
  }

  /** Field j of a material directive is an integer for j == 3 (its type) and a float otherwise. */
  predicate MaterialFieldParses(j: nat, t: Token) {
    if j == 3 then IntOf(t).Some? else FloatOf(t).Some?
  }

  /** Field j of a sphere directive is an integer for j == 4 (its material index) and a float otherwise. */
  predicate SphereFieldParses(j: nat, t: Token) {
    if j == 4 then IntOf(t).Some? else FloatOf(t).Some?
  }

  /**
   * Reads the five fields after a `material` keyword into a default
   * Material, in the order albedo.x, albedo.y, albedo.z, type, roughness.
   */
  function ReadMaterial(ts: seq<Token>): (r: Field<Material>)
    ensures r.good ==> |ts| >= 5
    ensures r.good ==> && FloatOf(ts[0]) == Some(r.value.albedo.x) && FloatOf(ts[1]) == Some(r.value.albedo.y)
                       && FloatOf(ts[2]) == Some(r.value.albedo.z) && IntOf(ts[3]) == Some(r.value.kind)
                       && FloatOf(ts[4]) == Some(r.value.roughness)
  {
    var x := ExtractFloat(ts, 0, true, DefaultMaterial.albedo.x);
    var y := ExtractFloat(ts, 1, x.good, DefaultMaterial.albedo.y);
    var z := ExtractFloat(ts, 2, y.good, DefaultMaterial.albedo.z);
    var k := ExtractInt(ts, 3, z.good, DefaultMaterial.kind);
    var r := ExtractFloat(ts, 4, k.good, DefaultMaterial.roughness);
    Field(Material(Vec3(x.value, y.value, z.value), r.value, k.value), r.good)
  }

  /**
   * Reads the five fields after a `sphere` keyword into a default Sphere,
   * in the order position.x, position.y, position.z, radius, material index.
   */
  function ReadSphere(ts: seq<Token>): (r: Field<Sphere>)
    ensures r.good ==> |ts| >= 5
    ensures r.good ==> && FloatOf(ts[0]) == Some(r.value.position.x) && FloatOf(ts[1]) == Some(r.value.position.y)
                       && FloatOf(ts[2]) == Some(r.value.position.z) && FloatOf(ts[3]) == Some(r.value.radius)
                       && IntOf(ts[4]) == Some(r.value.materialIndex)
    ensures r.value.position.w == 0.0
  {
    var x := ExtractFloat(ts, 0, true, DefaultSphere.position.x);
    var y := ExtractFloat(ts, 1, x.good, DefaultSphere.position.y);
    var z := ExtractFloat(ts, 2, y.good, DefaultSphere.position.z);
    var rad := ExtractFloat(ts, 3, z.good, DefaultSphere.radius);
    var mi := ExtractInt(ts, 4, rad.good, DefaultSphere.materialIndex);
    Field(Sphere(Vec4(x.value, y.value, z.value, DefaultSphere.position.w), rad.value, mi.value), mi.good)
  }

  /** A material read succeeds exactly when five fields follow and each parses as its kind. */
  lemma ReadMaterialSucceeds(ts: seq<Token>)
    ensures ReadMaterial(ts).good <==> |ts| >= 5 && forall j :: 0 <= j < 5 ==> MaterialFieldParses(j, ts[j])
  {
    if ReadMaterial(ts).good {
      assert MaterialFieldParses(0, ts[0]) && MaterialFieldParses(1, ts[1]) && MaterialFieldParses(2, ts[2]);
      assert MaterialFieldParses(3, ts[3]) && MaterialFieldParses(4, ts[4]);
    }
  }

  /** A sphere read succeeds exactly when five fields follow and each parses as its kind. */
  lemma ReadSphereSucceeds(ts: seq<Token>)
    ensures ReadSphere(ts).good <==> |ts| >= 5 && forall j :: 0 <= j < 5 ==> SphereFieldParses(j, ts[j])
  {
    if ReadSphere(ts).good {
      assert SphereFieldParses(0, ts[0]) && SphereFieldParses(1, ts[1]) && SphereFieldParses(2, ts[2]);
      assert SphereFieldParses(3, ts[3]) && SphereFieldParses(4, ts[4]);
    }
  }

  /**
   * A material read that stops at field j, because the token there is not
   * the expected number or the input ends before it: the fields before j
   * hold their tokens, a bad field j holds 0, and every field not reached
   * keeps the default (albedo and roughness 0, type Unused).
   */
  lemma ReadMaterialStops(ts: seq<Token>, j: nat)
    requires j < 5 && j <= |ts|
    requires forall i :: 0 <= i < j ==> MaterialFieldParses(i, ts[i])
    requires j == |ts| || !MaterialFieldParses(j, ts[j])
    ensures var r := ReadMaterial(ts);
      && !r.good
      && (if j > 0 then FloatOf(ts[0]) == Some(r.value.albedo.x) else r.value.albedo.x == 0.0)
      && (if j > 1 then FloatOf(ts[1]) == Some(r.value.albedo.y) else r.value.albedo.y == 0.0)
      && (if j > 2 then FloatOf(ts[2]) == Some(r.value.albedo.z) else r.value.albedo.z == 0.0)
      && (if j > 3 then IntOf(ts[3]) == Some(r.value.kind)
          else r.value.kind == if j == 3 && j < |ts| then 0 else Unused)
      && r.value.roughness == 0.0
  {
    assert j > 0 ==> MaterialFieldParses(0, ts[0]);
    assert j > 1 ==> MaterialFieldParses(1, ts[1]);
    assert j > 2 ==> MaterialFieldParses(2, ts[2]);
    assert j > 3 ==> MaterialFieldParses(3, ts[3]);
  }

  /**
   * A sphere read that stops at field j: the fields before j hold their
   * tokens and every other field is 0 (a bad field stores 0, and the fields
   * not reached keep the default 0).
   */
  lemma ReadSphereStops(ts: seq<Token>, j: nat)
    requires j < 5 && j <= |ts|
    requires forall i :: 0 <= i < j ==> SphereFieldParses(i, ts[i])
    requires j == |ts| || !SphereFieldParses(j, ts[j])
    ensures var r := ReadSphere(ts);
      && !r.good
      && (if j > 0 then FloatOf(ts[0]) == Some(r.value.position.x) else r.value.position.x == 0.0)
      && (if j > 1 then FloatOf(ts[1]) == Some(r.value.position.y) else r.value.position.y == 0.0)
      && (if j > 2 then FloatOf(ts[2]) == Some(r.value.position.z) else r.value.position.z == 0.0)
      && (if j > 3 then FloatOf(ts[3]) == Some(r.value.radius) else r.value.radius == 0.0)
      && r.value.materialIndex == 0
  {
    assert j > 0 ==> SphereFieldParses(0, ts[0]);
    assert j > 1 ==> SphereFieldParses(1, ts[1]);
    assert j > 2 ==> SphereFieldParses(2, ts[2]);
    assert j > 3 ==> SphereFieldParses(3, ts[3]);
  }

  // ---------------------------------------------------------------------
  // The load loop

  /** NotOpened: the file could not be opened. CapacityExceeded: a directive would write past its table. */
  datatype LoadStatus = NotOpened | Loaded | CapacityExceeded

  /**
   * The effect of the load loop on catalog `d` when the remaining tokens are
   * `ts` and `materialNum` materials were read so far in this load. Each
   * keyword reads its record and stores it even when the read failed; a
   * failed read ends the loop. Any other token is skipped on its own.
   */
  function Run(d: SceneData, ts: seq<Token>, materialNum: nat): (r: (SceneData, LoadStatus))
    requires WellFormed(d)
    ensures WellFormed(r.0) && r.1 != NotOpened
    decreases |ts|, 1
  {
    if ts == [] then (d, Loaded)
    else if ts[0] == Word(MaterialKeyword) then MaterialDirective(d, ts[1..], materialNum)
    else if ts[0] == Word(SphereKeyword) then SphereDirective(d, ts[1..], materialNum)
    else Run(d, ts[1..], materialNum)
  }

  /**
   * A `material` keyword followed by `fields`: the material is read and
   * stored at slot materialNum, then loading goes on after its five fields
   * if the read succeeded.
   */
  function MaterialDirective(d: SceneData, fields: seq<Token>, materialNum: nat): (r: (SceneData, LoadStatus))
    requires WellFormed(d)
    ensures WellFormed(r.0) && r.1 != NotOpened
    ensures materialNum >= MaxMaterials ==> r == (d, CapacityExceeded)
    decreases |fields|, 0
  {
    if materialNum >= MaxMaterials then (d, CapacityExceeded)
    else
      var rd := ReadMaterial(fields);
      var d' := d.(materials := d.materials[materialNum := rd.value]);
      if rd.good then Run(d', fields[5..], materialNum + 1) else (d', Loaded)
  }

  /**
   * A `sphere` keyword followed by `fields`: the sphere is read and stored
   * at slot sphereNum, which advances, then loading goes on after its five
   * fields if the read succeeded.
   */
  function SphereDirective(d: SceneData, fields: seq<Token>, materialNum: nat): (r: (SceneData, LoadStatus))
    requires WellFormed(d)
    ensures WellFormed(r.0) && r.1 != NotOpened
    ensures d.sphereNum >= MaxSpheres ==> r == (d, CapacityExceeded)
    decreases |fields|, 0
  {
    if d.sphereNum >= MaxSpheres then (d, CapacityExceeded)
    else
      var rd := ReadSphere(fields);
      var d' := d.(spheres := d.spheres[d.sphereNum := rd.value], sphereNum := d.sphereNum + 1);
      if rd.good then Run(d', fields[5..], materialNum) else (d', Loaded)
  }
}

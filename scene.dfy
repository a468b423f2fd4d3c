/**
 * The Scene object: it owns the catalog tables, the camera position and
 * frame index, and counts the uploads of the catalog to its GPU buffer.
 * Save and Load walk the tables with index loops, as Scene::Save and
 * Scene::Load in scene.h do; each is proved against the reference
 * definitions of scene_file.dfy.
 */
module SceneState {
  import opened Catalog
  import opened SceneFile
  import opened Camera

  class Scene {
    const spheres: array<Sphere>
    const planes: array<Plane>
    const boxes: array<Box>
    const materials: array<Material>
    var sphereNum: int
    var planeNum: int
    var boxNum: int

    var cameraPosition: Vec3
    var frameIndex: u32
    /** How many times the catalog was copied to its GPU buffer after construction. */
    var sceneUploads: nat

    ghost predicate Valid()
      reads this
    {
      && spheres.Length == MaxSpheres
      && planes.Length == MaxPlanes
      && boxes.Length == MaxBoxes
      && materials.Length == MaxMaterials
      && 0 <= sphereNum <= MaxSpheres
    }

    /** The catalog as a value. */
    ghost function Data(): (d: SceneData)
      reads this, spheres, planes, boxes, materials
      requires Valid()
      ensures WellFormed(d)
    {
      SceneData(spheres[..], planes[..], boxes[..], materials[..], sphereNum, planeNum, boxNum)
    }

    /** A scene over the given catalog, or over a default-constructed one. */
    constructor (init: Option<SceneData>)
      requires init.Some? ==> WellFormed(init.value)
      ensures Valid()
      ensures fresh(spheres) && fresh(planes) && fresh(boxes) && fresh(materials)
      ensures Data() == if init.Some? then init.value else EmptyScene()
      ensures cameraPosition == Vec3(0.0, 1.0, 0.0) && frameIndex == 0 && sceneUploads == 0
    {
      var d := if init.Some? then init.value else EmptyScene();
      spheres := new Sphere[MaxSpheres](i requires 0 <= i < MaxSpheres => d.spheres[i]);
      planes := new Plane[MaxPlanes](i requires 0 <= i < MaxPlanes => d.planes[i]);
      boxes := new Box[MaxBoxes](i requires 0 <= i < MaxBoxes => d.boxes[i]);
      materials := new Material[MaxMaterials](i requires 0 <= i < MaxMaterials => d.materials[i]);
      sphereNum, planeNum, boxNum := d.sphereNum, d.planeNum, d.boxNum;
      cameraPosition := Vec3(0.0, 1.0, 0.0);
      frameIndex := 0;
      sceneUploads := 0;
      new;
      assert spheres[..] == d.spheres && planes[..] == d.planes;
      assert boxes[..] == d.boxes && materials[..] == d.materials;
    }

    /** Copies the whole catalog to its GPU buffer; only the count of copies is modelled. */
    method UpdateSceneBuffer()
      modifies this`sceneUploads
      ensures sceneUploads == old(sceneUploads) + 1
    {
      sceneUploads := sceneUploads + 1;
    }

    /**
     * One camera update: W or else S moves along front, A or else D along
     * right, then the frame index advances.
     */
    method UpdateCamera(keys: Keys, front: Vec3, right: Vec3, step: real)
      modifies this`cameraPosition, this`frameIndex
      ensures cameraPosition == Add(old(cameraPosition), Movement(keys, front, right, step))
      ensures frameIndex == NextFrameIndex(old(frameIndex))
      ensures 1 <= frameIndex as int <= FramePeriod
    {
      if keys.w {
        cameraPosition := Add(cameraPosition, Scale(front, step));
      } else if keys.s {
        cameraPosition := Sub(cameraPosition, Scale(front, step));
      }
      if keys.a {
        cameraPosition := Add(cameraPosition, Scale(right, step));
      } else if keys.d {
        cameraPosition := Sub(cameraPosition, Scale(right, step));
      }
      if frameIndex as int > FrameWrapThreshold {
        frameIndex := 0;
      }
      frameIndex := frameIndex + 1;
    }

    /**
     * The lines of the saved file: one material line per slot in index
     * order, stopping at the first slot whose type is Unused (so at most
     * MaxMaterials of them), then exactly sphereNum sphere lines in index
     * order. Planes and boxes are never written.
     */
    method Save() returns (lines: seq<Directive>)
      requires Valid()
      ensures lines == SavedLines(Data())
      ensures |lines| == UsedMaterials(materials[..]) + sphereNum
      ensures forall i :: 0 <= i < UsedMaterials(materials[..]) ==>
        materials[i].kind != Unused && lines[i] == MaterialLineOf(materials[i])
      ensures UsedMaterials(materials[..]) < MaxMaterials ==> materials[UsedMaterials(materials[..])].kind == Unused
      ensures forall i :: 0 <= i < sphereNum ==> lines[UsedMaterials(materials[..]) + i] == SphereLineOf(spheres[i])
    {
      lines := [];
      var i := 0;
      while i < MaxMaterials
        invariant 0 <= i <= MaxMaterials
        invariant forall j :: 0 <= j < i ==> materials[j].kind != Unused
        invariant lines == MaterialLines(materials[..i])
      {
        if materials[i].kind == Unused {
          break;
        }
        lines := lines + [MaterialLineOf(materials[i])];
        i := i + 1;
      }
      var used := i;
      assert used == UsedMaterials(materials[..]);
      i := 0;
      while i < sphereNum
        invariant 0 <= i <= sphereNum
        invariant lines == MaterialLines(materials[..used]) + SphereLines(spheres[..i])
      {
        lines := lines + [SphereLineOf(spheres[i])];
        i := i + 1;
      }
      assert spheres[..sphereNum] == spheres[..][..sphereNum];
      assert materials[..used] == materials[..][..used];
    }

    /**
     * Loads a scene file, given as its tokens, or None when it cannot be
     * opened. Materials are written from slot 0, spheres are appended at
     * sphereNum; the result is the one Run defines. The catalog is
     * re-uploaded after a completed load.
     */
    method Load(file: Option<seq<Token>>) returns (status: LoadStatus)
      requires Valid()
      modifies this`sphereNum, this`sceneUploads, spheres, materials
      ensures Valid()
      ensures file.None? ==> status == NotOpened && Data() == old(Data()) && sceneUploads == old(sceneUploads)
      ensures file.Some? ==> (Data(), status) == Run(old(Data()), file.value, 0)
      ensures sceneUploads == old(sceneUploads) + (if status == Loaded then 1 else 0)
    {
      if file.None? {
        return NotOpened;
      }
      var ts := file.value;
      var materialNum: nat := 0;
      var pos := 0;
      var good := true;
      while good && pos < |ts|
        invariant Valid()
        invariant 0 <= pos <= |ts|
        invariant sceneUploads == old(sceneUploads)
        invariant Run(old(Data()), ts, 0) == if good then Run(Data(), ts[pos..], materialNum) else (Data(), Loaded)
        decreases |ts| - pos
      {
        ghost var before := Data();
        var word := ts[pos];
        assert ts[pos..][1..] == ts[pos + 1..];
        pos := pos + 1;
        if word == Word(MaterialKeyword) {
          if materialNum >= MaxMaterials {
            return CapacityExceeded;
          }
          assert Run(before, ts[pos - 1..], materialNum) == MaterialDirective(before, ts[pos..], materialNum);
          var rd := ReadMaterial(ts[pos..]);
          materials[materialNum] := rd.value;
          materialNum := materialNum + 1;
          good := rd.good;
          if good {
            pos := pos + 5;
          }
          assert Data() == before.(materials := before.materials[materialNum - 1 := rd.value]);
        } else if word == Word(SphereKeyword) {
          if sphereNum >= MaxSpheres {
            return CapacityExceeded;
          }
          assert Run(before, ts[pos - 1..], materialNum) == SphereDirective(before, ts[pos..], materialNum);
          var rd := ReadSphere(ts[pos..]);
          spheres[sphereNum] := rd.value;
          sphereNum := sphereNum + 1;
          good := rd.good;
          if good {
            pos := pos + 5;
          }
          assert Data() == before.(spheres := before.spheres[sphereNum - 1 := rd.value], sphereNum := sphereNum);
        }
      }
      UpdateSceneBuffer();
      status := Loaded;
    }
  }
}

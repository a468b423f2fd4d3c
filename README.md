# Raytracer scene state, in Dafny

This project models the CPU side of the scene in a small Direct3D 11 compute-shader raytracer.
That side is `Raytracer/scene.h`. It holds:

- **The catalog.** Fixed tables of 16 spheres, 16 planes, 16 axis-aligned boxes and 8 materials, with the counts `sphere_num`, `plane_num` and `box_num`. A material slot whose `type` is `-1` is unused; `-1` is the default.
- **The scene text codec.** `Scene::Save` writes `material` and `sphere` lines. `Scene::Load` reads whitespace-separated tokens and stores records in place.
- **The camera update.** W/S and A/D choose the movement. The `frame_index` that the accumulation kernel reads is a `uint32_t` that advances on every update.

Files:

- `catalog.dfy` (module `Catalog`): the records, the capacities, the value snapshot `SceneData` and `UsedMaterials`. `UsedMaterials` is the length of the occupied prefix of the material table.
- `scene_file.dfy` (module `SceneFile`): the file as a sequence of tokens and the directives `Save` writes. It also defines number extraction as a C++11 input stream does it, and `Run`, the reference definition of the load loop, with `MaterialDirective` and `SphereDirective` for the two kinds of directive.
- `scene_file_lemmas.dfy` (module `SceneFileLemmas`): the round trip and the other properties of the codec.
- `camera.dfy` (module `Camera`): the frame index as a `u32` newtype, and the key precedence.
- `scene.dfy` (module `SceneState`): the class `Scene`. It holds the tables as arrays and the counters as fields. `Save`, `Load` and `UpdateCamera` are loop- and statement-level methods, each proved against the definitions above.

How the file is modelled:

- A file is a `seq<Token>`. A token is a `Word`, a `FloatText` or an `IntText`.
- Numbers are exact: `Save` writes `FloatText(v)` and reading it gives back `v`.
- A float field accepts a float or an integer token. An integer field accepts an integer token only.
- Extraction follows C++11 input streams:
  - if the stream has already failed, or is at the end of the input, the target keeps its value;
  - a token that is not a number stores 0 and fails the stream.
- So a directive cut off by the end of the file keeps the defaults in the fields it did not reach: a material's `type` stays `-1`, every other unread field is 0. A non-numeric field gets 0, and the fields before it hold their tokens (`ReadMaterialStops`, `ReadSphereStops`).

Two behaviours of the code worth knowing:

- **Frame index.** The index is reset to 0 only when it is strictly above 1 000 000 (`scene.h:148-149`), and it is incremented in the same update. So after any update the stored value lies in `[1, 1000001]`, and the sequence runs 999999, 1000000, 1000001, 1.
- **Load.** Materials are written from slot 0 on every load, because the local `material_num` starts at 0; they replace the earlier ones instead of being appended. Spheres are appended at `sphere_num`.

## Model

| member | source | states |
|---|---|---|
| `Catalog.UsedMaterials` | Raytracer/scene.h:160-161 | the number of material lines Save writes: at most the table size, every slot before it has a type other than -1, and the slot at it (if any) has type -1 |
| `Catalog.EmptyScene` | Raytracer/scene.h:10-45 | a default-constructed catalog is well formed, has all three counts at 0 and every material slot unused, so no slot is occupied |
| `SceneFile.Text` | Raytracer/scene.h:162-176 | every saved line, material or sphere, is read back as exactly six tokens |
| `SceneFile.ExtractFloat` | Raytracer/scene.h:189-190 | a float extraction succeeds iff the stream is good and the next token is a number, and then yields that number; a failed or exhausted stream leaves the target unchanged; a token that is not a number stores 0 |
| `SceneFile.ExtractInt` | Raytracer/scene.h:196-197 | the same for an integer field, which accepts only integer tokens; a token that is not an integer stores 0 |
| `SceneFile.ReadMaterial` | Raytracer/scene.h:188-190 | a material read that leaves the stream good has consumed five field tokens, and the material holds them: albedo x, y, z from the first three, type from the fourth, roughness from the fifth |
| `SceneFile.ReadMaterialSucceeds` | Raytracer/scene.h:188-190 | reading a material's five fields succeeds iff five tokens follow and each parses as its field's kind (type an integer, the others floats) |
| `SceneFile.ReadSphere` | Raytracer/scene.h:194-197 | a sphere read that leaves the stream good has consumed five field tokens, and the sphere holds them: position x, y, z, radius, material index in that order; the loaded position's w is always 0, since the file has no w |
| `SceneFile.ReadSphereSucceeds` | Raytracer/scene.h:195-197 | reading a sphere's five fields succeeds iff five tokens follow and each parses as its field's kind (material index an integer, the others floats) |
| `SceneFile.ReadMaterialStops` | Raytracer/scene.h:188-190 | a material read that stops at field j (bad token or end of input) fails; the fields before j hold their tokens, a bad field holds 0, unreached fields keep the defaults, so a material cut off before its type keeps type -1 and roughness 0 |
| `SceneFile.ReadSphereStops` | Raytracer/scene.h:194-197 | a sphere read that stops at field j fails; the fields before j hold their tokens and all later fields, including the material index, are 0 |
| `SceneFile.Run` | Raytracer/scene.h:184-200 | the load loop keeps the catalog well formed (sphere_num stays within the table) and never reports NotOpened |
| `SceneFile.MaterialDirective` | Raytracer/scene.h:186-192 | a material directive keeps the catalog well formed; with the material counter already at 8 it reports CapacityExceeded and leaves the catalog unchanged instead of writing past the table |
| `SceneFile.SphereDirective` | Raytracer/scene.h:193-198 | a sphere directive keeps the catalog well formed; with sphere_num already at 16 it reports CapacityExceeded and leaves the catalog unchanged instead of writing past the table |
| `SceneFileLemmas.TextAppend` | Raytracer/scene.h:157-177 | the token stream of two blocks of lines is the concatenation of their streams |
| `SceneFileLemmas.ReadMaterialLine` | Raytracer/scene.h:162-167 | reading the fields of a saved material line gives back the material, whatever follows |
| `SceneFileLemmas.ReadSphereLine` | Raytracer/scene.h:171-176 | reading the fields of a saved sphere line gives back the sphere's x, y, z, radius and material index, with w = 0 |
| `SceneFileLemmas.RunMaterialLine` | Raytracer/scene.h:186-192 | a complete material directive is stored at the material counter, which advances, and loading continues after its six tokens |
| `SceneFileLemmas.RunSphereLine` | Raytracer/scene.h:193-198 | a complete sphere directive is stored at sphere_num, which advances, and loading continues after its six tokens |
| `SceneFileLemmas.RunMaterialLines` | Raytracer/scene.h:184-193 | a block of material lines overwrites consecutive slots starting at the material counter, leaving the other slots as they were |
| `SceneFileLemmas.RunSphereLines` | Raytracer/scene.h:194-199 | a block of sphere lines appends the spheres in order at sphere_num and advances it by their number |
| `SceneFileLemmas.LoadSavedPrefix` | Raytracer/scene.h:157-205 | a saved file followed by any tokens loads to LoadedFrom(e, d), and loading continues with the material counter at the number of saved materials |
| `SceneFileLemmas.SavedText` | Raytracer/scene.h:157-177 | a saved file's tokens are its material block followed by its sphere block |
| `SceneFileLemmas.LoadSaved` | Raytracer/scene.h:157-205 | loading exactly a saved file succeeds and leaves LoadedFrom(e, d) |
| `SceneFileLemmas.WithMaterialsSlots` | Raytracer/scene.h:186-192 | storing materials from slot 0 sets exactly those slots, keeps the later ones, and changes nothing but the material table |
| `SceneFileLemmas.WithSpheresSlots` | Raytracer/scene.h:193-198 | appending spheres keeps the stored ones, puts the new ones in order after them, keeps the slots past them, and advances sphere_num by their number |
| `SceneFileLemmas.LoadedFromSlots` | Raytracer/scene.h:157-205 | the catalog a load of d's file leaves, slot by slot: d's occupied materials in slots 0..k, e's other materials, e's spheres, then d's spheres as loaded, then e's later slots; planes and boxes unchanged |
| `SceneFileLemmas.LoadAfterSave` | Raytracer/scene.h:157-205 | round trip: loading what Save wrote for d returns success; d's occupied materials are in slots 0..k, the other slots are unchanged; sphere_num grows by d's count; d's spheres follow the existing ones in order, equal on x/y/z, radius and material index; planes, boxes and their counts are unchanged |
| `SceneFileLemmas.UsedMaterialsUnique` | Raytracer/scene.h:160-161 | the number of saved materials is the only k with occupied slots before it and an unused slot at it |
| `SceneFileLemmas.ReloadedLines` | Raytracer/scene.h:157-205 | the catalog a fresh scene rebuilds from d's file saves to the same lines as d |
| `SceneFileLemmas.SaveLoadSaveStable` | Raytracer/scene.h:157-205 | saving, loading into a fresh catalog and saving again writes the same lines |
| `SceneFileLemmas.LoadedFromTwice` | Raytracer/scene.h:184-198 | the catalog a second load of d's file leaves: the same materials, the spheres of the first load kept, and d's spheres (as loaded) appended once more after them |
| `SceneFileLemmas.ReloadAccumulatesSpheres` | Raytracer/scene.h:184-198 | loading the same file twice succeeds both times, leaves the materials as one load does, keeps the spheres of the first load, and appends d's spheres (as loaded) a second time after them |
| `SceneFileLemmas.RunKeepsOthers` | Raytracer/scene.h:184-200 | any load leaves planes, boxes and their counts alone, only appends spheres (sphere_num never decreases and stored spheres stay), and never rewrites a material slot below the current material counter |
| `SceneFileLemmas.SkipUnknownTokens` | Raytracer/scene.h:186-200 | any run of tokens other than the two keywords is skipped token by token, not line by line, and changes no table or count |
| `SceneFileLemmas.ReadMaterialLocal` | Raytracer/scene.h:189-190 | once a material field token fails to parse, later tokens do not affect what is read |
| `SceneFileLemmas.ReadSphereLocal` | Raytracer/scene.h:196-197 | once a sphere field token fails to parse, later tokens do not affect what is read |
| `SceneFileLemmas.RunMalformedMaterial` | Raytracer/scene.h:185-192 | a material directive that fails to read is still stored at the counter, and the load ends there with success whatever follows |
| `SceneFileLemmas.RunMalformedSphere` | Raytracer/scene.h:185-198 | a sphere directive that fails to read is still appended, and the load ends there with success whatever follows |
| `SceneFileLemmas.MalformedDirectiveEndsLoad` | Raytracer/scene.h:186-199 | after a malformed or truncated directive, the records before it remain, the partly read record is stored in the next slot with its counter advanced, Load still succeeds, and no later token is applied |
| `SceneFileLemmas.TruncatedMaterialHidesLater` | Raytracer/scene.h:157-192 | a saved file followed by a bare `material` keyword loads, stores a material of type -1 in the next slot, and so the next Save writes exactly the saved materials again |
| `SceneFileLemmas.MaterialOverflow` | Raytracer/scene.h:186-192 | a saved file that fills all 8 material slots, followed by one more material directive, stops the load with CapacityExceeded and the catalog the saved file produced (so, through Load, no upload) |
| `SceneFileLemmas.SphereOverflow` | Raytracer/scene.h:193-198 | a saved file whose spheres fill the sphere table, followed by one more sphere directive, stops the load with CapacityExceeded and the catalog the saved file produced |
| `SceneFileLemmas.AppendedSpheres` | Raytracer/scene.h:193-198 | the loaded forms of n spheres written from slot n0 keep the slots before and after them and hold the spheres in order |
| `SceneFileLemmas.EmptySceneSavesNothing` | Raytracer/scene.h:157-205 | a fresh catalog saves to an empty file, and loading an empty file succeeds and changes nothing |
| `Camera.NextFrameIndex` | Raytracer/scene.h:148-149 | after an update the frame index lies in [1, 1000001] for any prior uint32 value, with no overflow; at or below 1 000 000 it advances by exactly one, and above 1 000 000 it becomes 1 (reset to 0, then incremented) |
| `Camera.FrameIndexCycle` | Raytracer/scene.h:148-149 | from 0 or any value up to 1000001, n >= 1 updates give (f - 1 + n) mod 1000001 + 1 |
| `Camera.FrameIndexBoundary` | Raytracer/scene.h:148-149 | the literal sequence 999999, 1000000, 1000001, 1, and a period of 1000001 updates |
| `Camera.KeyPrecedence` | Raytracer/scene.h:122-133 | W overrides S, A overrides D, and each axis ignores the other axis's keys; with W and S held the camera moves by front * step |
| `SceneState.Scene.constructor` | Raytracer/scene.h:72-76 | the scene holds its own freshly allocated tables, filled with a copy of the given catalog or with a default one; camera at (0, 1, 0), frame index 0 |
| `SceneState.Scene.UpdateSceneBuffer` | Raytracer/scene.h:108-113 | one more copy of the catalog reaches the GPU buffer |
| `SceneState.Scene.UpdateCamera` | Raytracer/scene.h:122-149 | the camera moves by Movement(keys, front, right, step); the frame index becomes NextFrameIndex of its old value, in [1, 1000001] |
| `SceneState.Scene.Save` | Raytracer/scene.h:157-178 | one material line per slot in index order, stopping at the first unused slot, then exactly sphere_num sphere lines in index order; the lines equal SavedLines of the catalog; planes and boxes are not written |
| `SceneState.Scene.Load` | Raytracer/scene.h:180-205 | a file that cannot be opened gives NotOpened and changes nothing, with no upload; otherwise the new catalog and the status are those of Run from the old catalog; the catalog is re-uploaded once exactly when the load completes |

## Left out

- `Raytracer/window.h`, `Raytracer/input.h` and `Raytracer/main.cpp` are not part of this model. They hold Direct3D, DXGI, Win32 and ImGui plumbing, the frame loop and its timing. Key state is an input to `UpdateCamera`.
- Scene.constructor: creating and binding the two constant buffers is not modelled.
- `UpdateCameraBuffer` is not modelled. `UpdateSceneBuffer` is modelled only as a count of uploads.
- Scene.UpdateCamera: the front and right directions are inputs, and so is `speed * delta_time`. The trigonometry, `normalize` and `cross` that compute them are not modelled, nor are `lookAt`, `perspective` and `inverse`.
- Scene.UpdateCamera: mouse look and the pitch clamp are not modelled, nor is the copy of the position into the GPU-visible camera record.
- Floating point is modelled as exact reals. Rounding is not modelled, nor is iostream's six-digit output precision. The trailing space on material lines is not modelled.
- SceneFile.IntOf: in an integer field, a float token is modelled as a parse failure. A real stream would read its integer prefix and leave the rest for the next field. Save never writes such a token.
- Tokens are atomic. A word that starts with digits (for example `1abc`) is not modelled, and a `Word` token's text is never a number: numeric text is always a `FloatText` or `IntText` token.
- The type and material index are unbounded integers. The 32-bit range of these fields is not modelled, nor is what a stream stores for an out-of-range integer.
- Fields the C++ structs leave uninitialised are 0 in the model: the albedo of a fresh Material, the material index of a fresh Sphere, and planes and boxes.
- Scene.Load: in the source, a ninth material directive or a seventeenth sphere writes past its array, which is undefined behaviour. The model stops there with CapacityExceeded and does not re-upload. Records stored before it remain.
- Scene.Load: the model stops at the ninth material directive (CapacityExceeded), so the source's further increments of the `uint8_t` material counter past 8, and its wrap-around after 255, are not modelled.
- Scene.Save: returns the lines instead of writing a file. Truncating the file, and failing to open it (which the source ignores), are not modelled.
- Struct padding and the binary layout shared with the shader are not modelled.

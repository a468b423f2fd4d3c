/**
 * Properties of the scene text format: what Load makes of a file that Save
 * wrote, how unknown tokens and malformed directives are handled, and how
 * repeated loads accumulate.
 */
module SceneFileLemmas {
  import opened Catalog
  import opened SceneFile

  /** What Load rebuilds from the line Save wrote for `s`: the w component is the loader's default. */
  function AsLoaded(s: Sphere): Sphere {
    Sphere(Vec4(s.position.x, s.position.y, s.position.z, DefaultSphere.position.w), s.radius, s.materialIndex)
  }

  function LoadedSpheres(ss: seq<Sphere>): seq<Sphere> {
    seq(|ss|, i requires 0 <= i < |ss| => AsLoaded(ss[i]))
  }

  /** `s` with the slots from `at` on replaced by `xs`, when they fit. */
  function Overwrite<T>(s: seq<T>, at: nat, xs: seq<T>): (r: seq<T>)
    ensures |r| == |s|
  {
    if at + |xs| <= |s| then s[..at] + xs + s[at + |xs|..] else s
  }

  /** Material slots m.. of `e` replaced by `ms`. */
  function WithMaterials(e: SceneData, m: nat, ms: seq<Material>): (r: SceneData)
    requires WellFormed(e)
    ensures WellFormed(r)
  {
    e.(materials := Overwrite(e.materials, m, ms))
  }

  /** The loaded forms of `ss` appended at e's sphere count. */
  function WithSpheres(e: SceneData, ss: seq<Sphere>): (r: SceneData)
    requires WellFormed(e) && e.sphereNum + |ss| <= MaxSpheres
    ensures WellFormed(r)
  {
    e.(spheres := Overwrite(e.spheres, e.sphereNum, LoadedSpheres(ss)), sphereNum := e.sphereNum + |ss|)
  }

  /**
   * The catalog that loading the file saved from `d` leaves behind when it
   * starts from `e`: d's occupied materials over slots 0.., the rest of e's
   * materials, and d's spheres appended after e's.
   */
  function LoadedFrom(e: SceneData, d: SceneData): SceneData
    requires WellFormed(e) && WellFormed(d) && e.sphereNum + d.sphereNum <= MaxSpheres
  {
    WithSpheres(WithMaterials(e, 0, d.materials[..UsedMaterials(d.materials)]), d.spheres[..d.sphereNum])
  }

  lemma {:induction false} TextAppend(a: seq<Directive>, b: seq<Directive>)
    ensures Text(a + b) == Text(a) + Text(b)
    decreases |a|
  {
    if a == [] {
      assert a + b == b;
    } else {
      assert (a + b)[0] == a[0];
      assert (a + b)[1..] == a[1..] + b;
      TextAppend(a[1..], b);
    }
  }

  lemma TextCons(l: Directive, rest: seq<Directive>)
    ensures Text([l] + rest) == LineTokens(l) + Text(rest)
  {
    assert ([l] + rest)[0] == l;
    assert ([l] + rest)[1..] == rest;
  }

  /** Reading back the fields of a saved material line gives the material. */
  lemma ReadMaterialLine(m: Material, rest: seq<Token>)
    ensures ReadMaterial(LineTokens(MaterialLineOf(m))[1..] + rest) == Field(m, true)
  {
    var ts := LineTokens(MaterialLineOf(m))[1..] + rest;
    assert ts[0] == FloatText(m.albedo.x) && ts[1] == FloatText(m.albedo.y);
    assert ts[2] == FloatText(m.albedo.z) && ts[3] == IntText(m.kind) && ts[4] == FloatText(m.roughness);
  }

  /** Reading back the fields of a saved sphere line gives the sphere with the loader's w. */
  lemma ReadSphereLine(s: Sphere, rest: seq<Token>)
    ensures ReadSphere(LineTokens(SphereLineOf(s))[1..] + rest) == Field(AsLoaded(s), true)
  {
    var ts := LineTokens(SphereLineOf(s))[1..] + rest;
    assert ts[0] == FloatText(s.position.x) && ts[1] == FloatText(s.position.y);
    assert ts[2] == FloatText(s.position.z) && ts[3] == FloatText(s.radius) && ts[4] == IntText(s.materialIndex);
  }

  /** A saved material line at the front of the input is stored at the material counter. */
  lemma RunMaterialLine(e: SceneData, x: Material, tail: seq<Token>, m: nat)
    requires WellFormed(e) && m < MaxMaterials
    ensures Run(e, LineTokens(MaterialLineOf(x)) + tail, m) == Run(e.(materials := e.materials[m := x]), tail, m + 1)
  {
    var ts := LineTokens(MaterialLineOf(x)) + tail;
    assert ts[0] == Word(MaterialKeyword);
    assert ts[1..] == LineTokens(MaterialLineOf(x))[1..] + tail;
    ReadMaterialLine(x, tail);
    assert ts[6..] == tail;
  }

  /** A saved sphere line at the front of the input is appended at the sphere count. */
  lemma RunSphereLine(e: SceneData, x: Sphere, tail: seq<Token>, m: nat)
    requires WellFormed(e) && e.sphereNum < MaxSpheres
    ensures Run(e, LineTokens(SphereLineOf(x)) + tail, m)
         == Run(e.(spheres := e.spheres[e.sphereNum := AsLoaded(x)], sphereNum := e.sphereNum + 1), tail, m)
  {
    var ts := LineTokens(SphereLineOf(x)) + tail;
    assert ts[0] == Word(SphereKeyword);
    assert ts[1..] == LineTokens(SphereLineOf(x))[1..] + tail;
    ReadSphereLine(x, tail);
    assert ts[6..] == tail;
  }

  lemma OverwriteNil<T>(s: seq<T>, at: nat)
    requires at <= |s|
    ensures Overwrite(s, at, []) == s
  {
    assert s[..at] + [] + s[at..] == s;
  }

  /** Writing the first element at `at` and the others after it is writing them all from `at`. */
  lemma OverwriteCons<T>(s: seq<T>, at: nat, xs: seq<T>)
    requires xs != [] && at + |xs| <= |s|
    ensures Overwrite(s[at := xs[0]], at + 1, xs[1..]) == Overwrite(s, at, xs)
  {
    var t := s[at := xs[0]];
    assert t[..at + 1] == s[..at] + [xs[0]];
    assert t[at + 1 + |xs[1..]|..] == s[at + |xs|..];
    assert [xs[0]] + xs[1..] == xs;
    assert s[..at] + [xs[0]] + xs[1..] == s[..at] + xs;
  }

  /** What Overwrite leaves in each slot. */
  lemma OverwriteSlots<T>(s: seq<T>, at: nat, xs: seq<T>)
    requires at + |xs| <= |s|
    ensures forall i :: 0 <= i < at ==> Overwrite(s, at, xs)[i] == s[i]
    ensures forall i :: 0 <= i < |xs| ==> Overwrite(s, at, xs)[at + i] == xs[i]
    ensures forall i :: at + |xs| <= i < |s| ==> Overwrite(s, at, xs)[i] == s[i]
  {
  }

  lemma MaterialTextCons(ms: seq<Material>, rest: seq<Token>)
    requires ms != []
    ensures Text(MaterialLines(ms)) + rest == LineTokens(MaterialLineOf(ms[0])) + (Text(MaterialLines(ms[1..])) + rest)
  {
    assert MaterialLines(ms) == [MaterialLineOf(ms[0])] + MaterialLines(ms[1..]);
    TextCons(MaterialLineOf(ms[0]), MaterialLines(ms[1..]));
  }

  lemma SphereTextCons(ss: seq<Sphere>, rest: seq<Token>)
    requires ss != []
    ensures Text(SphereLines(ss)) + rest == LineTokens(SphereLineOf(ss[0])) + (Text(SphereLines(ss[1..])) + rest)
  {
    assert SphereLines(ss) == [SphereLineOf(ss[0])] + SphereLines(ss[1..]);
    TextCons(SphereLineOf(ss[0]), SphereLines(ss[1..]));
  }

  /** Storing the first material at m and the others from m + 1 is storing them all from m. */
  lemma WithMaterialsCons(e: SceneData, m: nat, ms: seq<Material>)
    requires WellFormed(e) && ms != [] && m + |ms| <= MaxMaterials
    ensures WithMaterials(e.(materials := e.materials[m := ms[0]]), m + 1, ms[1..]) == WithMaterials(e, m, ms)
  {
    OverwriteCons(e.materials, m, ms);
  }

  /** Appending the first sphere and then the others is appending them all. */
  lemma WithSpheresCons(e: SceneData, ss: seq<Sphere>)
    requires WellFormed(e) && ss != [] && e.sphereNum + |ss| <= MaxSpheres
    ensures WithSpheres(e.(spheres := e.spheres[e.sphereNum := AsLoaded(ss[0])], sphereNum := e.sphereNum + 1), ss[1..])
         == WithSpheres(e, ss)
  {
    assert LoadedSpheres(ss)[0] == AsLoaded(ss[0]) && LoadedSpheres(ss)[1..] == LoadedSpheres(ss[1..]);
    OverwriteCons(e.spheres, e.sphereNum, LoadedSpheres(ss));
  }

  /** Material lines overwrite consecutive slots from the current material counter. */
  lemma {:induction false} RunMaterialLines(e: SceneData, ms: seq<Material>, rest: seq<Token>, m: nat)
    requires WellFormed(e) && m + |ms| <= MaxMaterials
    ensures Run(e, Text(MaterialLines(ms)) + rest, m) == Run(WithMaterials(e, m, ms), rest, m + |ms|)
    decreases |ms|
  {
    if ms == [] {
      assert Text(MaterialLines(ms)) + rest == rest;
      OverwriteNil(e.materials, m);
    } else {
      var tail := Text(MaterialLines(ms[1..])) + rest;
      MaterialTextCons(ms, rest);
      assert Run(e, Text(MaterialLines(ms)) + rest, m) == Run(e, LineTokens(MaterialLineOf(ms[0])) + tail, m);
      RunMaterialLine(e, ms[0], tail, m);
      RunMaterialLines(e.(materials := e.materials[m := ms[0]]), ms[1..], rest, m + 1);
      WithMaterialsCons(e, m, ms);
      assert m + 1 + |ms[1..]| == m + |ms|;
    }
  }

  /** Sphere lines append at the sphere count, which advances once per line. */
  lemma {:induction false} RunSphereLines(e: SceneData, ss: seq<Sphere>, rest: seq<Token>, m: nat)
    requires WellFormed(e) && e.sphereNum + |ss| <= MaxSpheres
    ensures Run(e, Text(SphereLines(ss)) + rest, m) == Run(WithSpheres(e, ss), rest, m)
    decreases |ss|
  {
    if ss == [] {
      assert Text(SphereLines(ss)) + rest == rest;
      OverwriteNil(e.spheres, e.sphereNum);
    } else {
      var tail := Text(SphereLines(ss[1..])) + rest;
      SphereTextCons(ss, rest);
      assert Run(e, Text(SphereLines(ss)) + rest, m) == Run(e, LineTokens(SphereLineOf(ss[0])) + tail, m);
      RunSphereLine(e, ss[0], tail, m);
      RunSphereLines(e.(spheres := e.spheres[e.sphereNum := AsLoaded(ss[0])], sphereNum := e.sphereNum + 1), ss[1..], rest, m);
      WithSpheresCons(e, ss);
    }
  }

  /** The tokens of a saved file followed by `rest`, as its material block and its sphere block. */
  lemma SavedText(d: SceneData, rest: seq<Token>)
    requires WellFormed(d)
    ensures var ms, ss := d.materials[..UsedMaterials(d.materials)], d.spheres[..d.sphereNum];
      Text(SavedLines(d)) + rest == Text(MaterialLines(ms)) + (Text(SphereLines(ss)) + rest)
  {
    var a := MaterialLines(d.materials[..UsedMaterials(d.materials)]);
    var b := SphereLines(d.spheres[..d.sphereNum]);
    assert SavedLines(d) == a + b;
    TextAppend(a, b);
    assert Text(a) + Text(b) + rest == Text(a) + (Text(b) + rest);
  }

  /**
   * Loading a saved file followed by any further tokens: the saved
   * directives produce LoadedFrom(e, d), and the load goes on with the
   * material counter at the number of saved materials.
   */
  lemma LoadSavedPrefix(e: SceneData, d: SceneData, rest: seq<Token>)
    requires WellFormed(e) && WellFormed(d) && e.sphereNum + d.sphereNum <= MaxSpheres
    ensures Run(e, Text(SavedLines(d)) + rest, 0) == Run(LoadedFrom(e, d), rest, UsedMaterials(d.materials))
  {
    var ms, ss := d.materials[..UsedMaterials(d.materials)], d.spheres[..d.sphereNum];
    var sphereText := Text(SphereLines(ss)) + rest;
    SavedText(d, rest);
    assert Run(e, Text(SavedLines(d)) + rest, 0) == Run(e, Text(MaterialLines(ms)) + sphereText, 0);
    RunMaterialLines(e, ms, sphereText, 0);
    assert 0 + |ms| == |ms| == UsedMaterials(d.materials);
    RunSphereLines(WithMaterials(e, 0, ms), ss, rest, |ms|);
    assert WithSpheres(WithMaterials(e, 0, ms), ss) == LoadedFrom(e, d);
  }

  /** Loading exactly a saved file succeeds and leaves LoadedFrom(e, d). */
  lemma LoadSaved(e: SceneData, d: SceneData)
    requires WellFormed(e) && WellFormed(d) && e.sphereNum + d.sphereNum <= MaxSpheres
    ensures Run(e, Text(SavedLines(d)), 0) == (LoadedFrom(e, d), Loaded)
  {
    LoadSavedPrefix(e, d, []);
    assert Text(SavedLines(d)) + [] == Text(SavedLines(d));
  }

  /** Storing the first k materials of ms from slot 0, slot by slot. */
  lemma WithMaterialsSlots(e: SceneData, ms: seq<Material>, k: nat)
    requires WellFormed(e) && k <= |ms| && k <= MaxMaterials
    ensures var r := WithMaterials(e, 0, ms[..k]);
      && r.spheres == e.spheres && r.sphereNum == e.sphereNum
      && r.planes == e.planes && r.boxes == e.boxes && r.planeNum == e.planeNum && r.boxNum == e.boxNum
      && (forall i :: 0 <= i < k ==> r.materials[i] == ms[i])
      && (forall i :: k <= i < MaxMaterials ==> r.materials[i] == e.materials[i])
  {
    OverwriteSlots(e.materials, 0, ms[..k]);
  }

  /** The loaded forms of the first n spheres of ss written from slot n0, slot by slot. */
  lemma AppendedSpheres(s: seq<Sphere>, n0: nat, ss: seq<Sphere>, n: nat)
    requires n <= |ss| && n0 + n <= |s|
    ensures var t := Overwrite(s, n0, LoadedSpheres(ss[..n]));
      && (forall i :: 0 <= i < n0 ==> t[i] == s[i])
      && (forall i :: 0 <= i < n ==> t[n0 + i] == AsLoaded(ss[i]))
      && (forall i :: n0 + n <= i < |s| ==> t[i] == s[i])
  {
    OverwriteSlots(s, n0, LoadedSpheres(ss[..n]));
  }

  /** Appending the first n spheres of ss, slot by slot. */
  lemma WithSpheresSlots(e: SceneData, ss: seq<Sphere>, n: nat)
    requires WellFormed(e) && n <= |ss| && e.sphereNum + n <= MaxSpheres
    ensures var r, n0 := WithSpheres(e, ss[..n]), e.sphereNum;
      && r.materials == e.materials && r.sphereNum == n0 + n
      && r.planes == e.planes && r.boxes == e.boxes && r.planeNum == e.planeNum && r.boxNum == e.boxNum
      && (forall i :: 0 <= i < n0 ==> r.spheres[i] == e.spheres[i])
      && (forall i :: 0 <= i < n ==> r.spheres[n0 + i] == AsLoaded(ss[i]))
      && (forall i :: n0 + n <= i < MaxSpheres ==> r.spheres[i] == e.spheres[i])
  {
    AppendedSpheres(e.spheres, e.sphereNum, ss, n);
  }

  /** The catalog LoadedFrom describes, slot by slot. */
  lemma LoadedFromSlots(e: SceneData, d: SceneData)
    requires WellFormed(e) && WellFormed(d) && e.sphereNum + d.sphereNum <= MaxSpheres
    ensures var r, k, n0 := LoadedFrom(e, d), UsedMaterials(d.materials), e.sphereNum;
      && WellFormed(r)
      && r.sphereNum == n0 + d.sphereNum
      && (forall i :: 0 <= i < k ==> r.materials[i] == d.materials[i])
      && (forall i :: k <= i < MaxMaterials ==> r.materials[i] == e.materials[i])
      && (forall i :: 0 <= i < n0 ==> r.spheres[i] == e.spheres[i])
      && (forall i :: 0 <= i < d.sphereNum ==> r.spheres[n0 + i] == AsLoaded(d.spheres[i]))
      && (forall i :: n0 + d.sphereNum <= i < MaxSpheres ==> r.spheres[i] == e.spheres[i])
      && r.planes == e.planes && r.boxes == e.boxes && r.planeNum == e.planeNum && r.boxNum == e.boxNum
  {
    var k := UsedMaterials(d.materials);
    var e1 := WithMaterials(e, 0, d.materials[..k]);
    WithMaterialsSlots(e, d.materials, k);
    WithSpheresSlots(e1, d.spheres, d.sphereNum);
  }

  /**
   * Round trip. Loading the file Save wrote for `d` into a catalog `e`
   * succeeds; the occupied materials of d overwrite slots 0.. and the other
   * slots keep e's materials; d's spheres are appended after e's, each
   * printing the same line as the original; nothing else changes.
   */
  lemma LoadAfterSave(e: SceneData, d: SceneData)
    requires WellFormed(e) && WellFormed(d) && e.sphereNum + d.sphereNum <= MaxSpheres
    ensures Run(e, Text(SavedLines(d)), 0).1 == Loaded
    ensures var r, k, n0 := Run(e, Text(SavedLines(d)), 0).0, UsedMaterials(d.materials), e.sphereNum;
      && r.sphereNum == n0 + d.sphereNum
      && (forall i :: 0 <= i < k ==> r.materials[i] == d.materials[i])
      && (forall i :: k <= i < MaxMaterials ==> r.materials[i] == e.materials[i])
      && (forall i :: 0 <= i < n0 ==> r.spheres[i] == e.spheres[i])
      && (forall i :: 0 <= i < d.sphereNum ==>
            SphereLineOf(r.spheres[n0 + i]) == SphereLineOf(d.spheres[i]) && r.spheres[n0 + i].position.w == 0.0)
      && (forall i :: n0 + d.sphereNum <= i < MaxSpheres ==> r.spheres[i] == e.spheres[i])
      && r.planes == e.planes && r.boxes == e.boxes && r.planeNum == e.planeNum && r.boxNum == e.boxNum
  {
    LoadSaved(e, d);
    LoadedFromSlots(e, d);
  }

  /** A catalog rebuilt in a fresh scene from d's saved file saves to the same lines as d. */
  lemma ReloadedLines(d: SceneData)
    requires WellFormed(d)
    ensures SavedLines(LoadedFrom(EmptyScene(), d)) == SavedLines(d)
  {
    var e := EmptyScene();
    var r := LoadedFrom(e, d);
    var k := UsedMaterials(d.materials);
    LoadedFromSlots(e, d);
    assert k < MaxMaterials ==> r.materials[k] == e.materials[k];
    UsedMaterialsUnique(r.materials, k);
    assert r.materials[..k] == d.materials[..k];
    assert r.spheres[..r.sphereNum] == LoadedSpheres(d.spheres[..d.sphereNum]);
    SavedSphereLines(d.spheres[..d.sphereNum]);
  }

  /** The occupied prefix is the only k with used slots before it and an unused slot at it. */
  lemma UsedMaterialsUnique(ms: seq<Material>, k: nat)
    requires k <= |ms|
    requires forall i :: 0 <= i < k ==> ms[i].kind != Unused
    requires k < |ms| ==> ms[k].kind == Unused
    ensures UsedMaterials(ms) == k
  {
  }

  /** A loaded sphere prints the same line as the sphere it was saved from. */
  lemma SavedSphereLines(ss: seq<Sphere>)
    ensures SphereLines(LoadedSpheres(ss)) == SphereLines(ss)
  {
  }

  /** Save, Load into a fresh catalog, Save again: the second file has the same lines as the first. */
  lemma SaveLoadSaveStable(d: SceneData)
    requires WellFormed(d)
    ensures var (r, status) := Run(EmptyScene(), Text(SavedLines(d)), 0);
      status == Loaded && SavedLines(r) == SavedLines(d)
  {
    LoadSaved(EmptyScene(), d);
    ReloadedLines(d);
  }

  /** Loading d's file on top of an earlier load of it: materials as before, spheres appended again. */
  lemma LoadedFromTwice(e: SceneData, d: SceneData)
    requires WellFormed(e) && WellFormed(d) && e.sphereNum + 2 * d.sphereNum <= MaxSpheres
    ensures var r1 := LoadedFrom(e, d);
      var r2 := LoadedFrom(r1, d);
      && r2.materials == r1.materials
      && r2.sphereNum == e.sphereNum + 2 * d.sphereNum
      && (forall i :: 0 <= i < e.sphereNum + d.sphereNum ==> r2.spheres[i] == r1.spheres[i])
      && (forall i :: 0 <= i < d.sphereNum ==> r2.spheres[e.sphereNum + d.sphereNum + i] == AsLoaded(d.spheres[i]))
  {
    var r1 := LoadedFrom(e, d);
    LoadedFromSlots(e, d);
    LoadedFromSlots(r1, d);
    assert LoadedFrom(r1, d).materials == r1.materials;
  }

  /**
   * Loading the same saved file twice: materials are rewritten from slot 0
   * again, so the second load leaves them as the first did, while the
   * spheres are appended a second time.
   */
  lemma ReloadAccumulatesSpheres(e: SceneData, d: SceneData)
    requires WellFormed(e) && WellFormed(d) && e.sphereNum + 2 * d.sphereNum <= MaxSpheres
    ensures var (r1, s1) := Run(e, Text(SavedLines(d)), 0);
      var (r2, s2) := Run(r1, Text(SavedLines(d)), 0);
      && s1 == Loaded && s2 == Loaded
      && r2.materials == r1.materials
      && r2.sphereNum == e.sphereNum + 2 * d.sphereNum
      && (forall i :: 0 <= i < e.sphereNum + d.sphereNum ==> r2.spheres[i] == r1.spheres[i])
      && (forall i :: 0 <= i < d.sphereNum ==> r2.spheres[e.sphereNum + d.sphereNum + i] == AsLoaded(d.spheres[i]))
  {
    LoadSaved(e, d);
    LoadSaved(LoadedFrom(e, d), d);
    LoadedFromTwice(e, d);
  }

  /**
   * What any load leaves alone: planes, boxes and their counts; the spheres
   * already stored (spheres are only appended); and the material slots below
   * the material counter.
   */
  lemma {:induction false} RunKeepsOthers(d: SceneData, ts: seq<Token>, m: nat)
    requires WellFormed(d)
    ensures var r := Run(d, ts, m).0;
      && r.planes == d.planes && r.boxes == d.boxes
      && r.planeNum == d.planeNum && r.boxNum == d.boxNum
      && d.sphereNum <= r.sphereNum
      && (forall i :: 0 <= i < d.sphereNum ==> r.spheres[i] == d.spheres[i])
      && (forall i :: 0 <= i < m && i < MaxMaterials ==> r.materials[i] == d.materials[i])
    decreases |ts|
  {
    if ts == [] {
    } else if ts[0] == Word(MaterialKeyword) {
      if m < MaxMaterials {
        var rd := ReadMaterial(ts[1..]);
        if rd.good {
          RunKeepsOthers(d.(materials := d.materials[m := rd.value]), ts[6..], m + 1);
        }
      }
    } else if ts[0] == Word(SphereKeyword) {
      if d.sphereNum < MaxSpheres {
        var rd := ReadSphere(ts[1..]);
        if rd.good {
          RunKeepsOthers(d.(spheres := d.spheres[d.sphereNum := rd.value], sphereNum := d.sphereNum + 1), ts[6..], m);
        }
      }
    } else {
      RunKeepsOthers(d, ts[1..], m);
    }
  }

  /** Tokens other than the two keywords are skipped one at a time and change nothing. */
  lemma {:induction false} SkipUnknownTokens(d: SceneData, junk: seq<Token>, rest: seq<Token>, m: nat)
    requires WellFormed(d)
    requires forall i :: 0 <= i < |junk| ==> !IsKeyword(junk[i])
    ensures Run(d, junk + rest, m) == Run(d, rest, m)
    decreases |junk|
  {
    if junk == [] {
      assert junk + rest == rest;
    } else {
      assert (junk + rest)[0] == junk[0];
      assert (junk + rest)[1..] == junk[1..] + rest;
      SkipUnknownTokens(d, junk[1..], rest, m);
    }
  }

  /** A material directive whose fields include a token that is not the expected number. */
  predicate BadMaterialField(fields: seq<Token>) {
    exists j :: 0 <= j < 5 && j < |fields| && !MaterialFieldParses(j, fields[j])
  }

  /** A sphere directive whose fields include a token that is not the expected number. */
  predicate BadSphereField(fields: seq<Token>) {
    exists j :: 0 <= j < 5 && j < |fields| && !SphereFieldParses(j, fields[j])
  }

  /** Once a material field is bad, tokens after the field list do not affect the read. */
  lemma ReadMaterialLocal(fields: seq<Token>, more: seq<Token>)
    requires BadMaterialField(fields)
    ensures ReadMaterial(fields + more) == ReadMaterial(fields)
  {
    var j :| 0 <= j < 5 && j < |fields| && !MaterialFieldParses(j, fields[j]);
    var ts := fields + more;
    assert forall i :: 0 <= i < |fields| ==> ts[i] == fields[i];
  }

  /** Once a sphere field is bad, tokens after the field list do not affect the read. */
  lemma ReadSphereLocal(fields: seq<Token>, more: seq<Token>)
    requires BadSphereField(fields)
    ensures ReadSphere(fields + more) == ReadSphere(fields)
  {
    var j :| 0 <= j < 5 && j < |fields| && !SphereFieldParses(j, fields[j]);
    var ts := fields + more;
    assert forall i :: 0 <= i < |fields| ==> ts[i] == fields[i];
  }

  /** A material directive that fails to read is stored at the counter and ends the load. */
  lemma RunMalformedMaterial(l: SceneData, bad: seq<Token>, more: seq<Token>, k: nat)
    requires WellFormed(l) && k < MaxMaterials
    requires |bad| >= 1 && bad[0] == Word(MaterialKeyword) && !ReadMaterial(bad[1..]).good
    requires more == [] || BadMaterialField(bad[1..])
    ensures Run(l, bad + more, k) == (l.(materials := l.materials[k := ReadMaterial(bad[1..]).value]), Loaded)
  {
    var ts := bad + more;
    assert ts[0] == bad[0];
    assert ts[1..] == bad[1..] + more;
    if more != [] {
      ReadMaterialLocal(bad[1..], more);
    }
  }

  /** A sphere directive that fails to read is appended at the count and ends the load. */
  lemma RunMalformedSphere(l: SceneData, bad: seq<Token>, more: seq<Token>, k: nat)
    requires WellFormed(l) && l.sphereNum < MaxSpheres
    requires |bad| >= 1 && bad[0] == Word(SphereKeyword) && !ReadSphere(bad[1..]).good
    requires more == [] || BadSphereField(bad[1..])
    ensures Run(l, bad + more, k)
         == (l.(spheres := l.spheres[l.sphereNum := ReadSphere(bad[1..]).value], sphereNum := l.sphereNum + 1), Loaded)
  {
    var ts := bad + more;
    assert ts[0] == bad[0];
    assert ts[1..] == bad[1..] + more;
    if more != [] {
      ReadSphereLocal(bad[1..], more);
    }
  }

  /**
   * A saved file followed by a directive that is malformed (a field token
   * that is not a number) or truncated (the input ends inside it): the
   * records before it stay, the partly read record is stored in the next
   * slot, Load still reports success, and no token after it is applied.
   */
  lemma MalformedDirectiveEndsLoad(e: SceneData, d: SceneData, bad: seq<Token>, more: seq<Token>)
    requires WellFormed(e) && WellFormed(d) && e.sphereNum + d.sphereNum <= MaxSpheres
    requires |bad| >= 1 && IsKeyword(bad[0])
    requires bad[0] == Word(MaterialKeyword) ==>
      && UsedMaterials(d.materials) < MaxMaterials
      && !ReadMaterial(bad[1..]).good
      && (more == [] || BadMaterialField(bad[1..]))
    requires bad[0] == Word(SphereKeyword) ==>
      && e.sphereNum + d.sphereNum < MaxSpheres
      && !ReadSphere(bad[1..]).good
      && (more == [] || BadSphereField(bad[1..]))
    ensures var l, k := LoadedFrom(e, d), UsedMaterials(d.materials);
      Run(e, Text(SavedLines(d)) + bad + more, 0) ==
        if bad[0] == Word(MaterialKeyword) then
          (l.(materials := l.materials[k := ReadMaterial(bad[1..]).value]), Loaded)
        else
          (l.(spheres := l.spheres[l.sphereNum := ReadSphere(bad[1..]).value], sphereNum := l.sphereNum + 1), Loaded)
  {
    var l, k := LoadedFrom(e, d), UsedMaterials(d.materials);
    assert Text(SavedLines(d)) + bad + more == Text(SavedLines(d)) + (bad + more);
    LoadSavedPrefix(e, d, bad + more);
    if bad[0] == Word(MaterialKeyword) {
      RunMalformedMaterial(l, bad, more, k);
    } else {
      RunMalformedSphere(l, bad, more, k);
    }
  }

  /**
   * A saved file that already fills the material table, followed by one
   * more material directive: the load stops there with CapacityExceeded and
   * the catalog is the one the saved file produced.
   */
  lemma MaterialOverflow(e: SceneData, d: SceneData, rest: seq<Token>)
    requires WellFormed(e) && WellFormed(d) && e.sphereNum + d.sphereNum <= MaxSpheres
    requires UsedMaterials(d.materials) == MaxMaterials
    ensures Run(e, Text(SavedLines(d)) + ([Word(MaterialKeyword)] + rest), 0) == (LoadedFrom(e, d), CapacityExceeded)
  {
    LoadSavedPrefix(e, d, [Word(MaterialKeyword)] + rest);
    assert ([Word(MaterialKeyword)] + rest)[0] == Word(MaterialKeyword);
  }

  /**
   * A saved file whose spheres fill the sphere table after those already
   * loaded, followed by one more sphere directive: the load stops there with
   * CapacityExceeded and the catalog is the one the saved file produced.
   */
  lemma SphereOverflow(e: SceneData, d: SceneData, rest: seq<Token>)
    requires WellFormed(e) && WellFormed(d) && e.sphereNum + d.sphereNum == MaxSpheres
    ensures Run(e, Text(SavedLines(d)) + ([Word(SphereKeyword)] + rest), 0) == (LoadedFrom(e, d), CapacityExceeded)
  {
    LoadSavedPrefix(e, d, [Word(SphereKeyword)] + rest);
    assert ([Word(SphereKeyword)] + rest)[0] == Word(SphereKeyword);
  }

  /**
   * A saved file followed by a bare `material` keyword at the end of the
   * input: the load succeeds and stores a material whose type is still
   * Unused in the next slot, so the next Save writes exactly d's materials
   * again and hides any material slots after it.
   */
  lemma TruncatedMaterialHidesLater(e: SceneData, d: SceneData)
    requires WellFormed(e) && WellFormed(d) && e.sphereNum + d.sphereNum <= MaxSpheres
    requires UsedMaterials(d.materials) < MaxMaterials
    ensures var (r, status) := Run(e, Text(SavedLines(d)) + [Word(MaterialKeyword)], 0);
      && status == Loaded
      && UsedMaterials(r.materials) == UsedMaterials(d.materials)
      && r.materials[..UsedMaterials(d.materials)] == d.materials[..UsedMaterials(d.materials)]
  {
    var l, k := LoadedFrom(e, d), UsedMaterials(d.materials);
    var bad := [Word(MaterialKeyword)];
    ReadMaterialStops(bad[1..], 0);
    MalformedDirectiveEndsLoad(e, d, bad, []);
    assert Text(SavedLines(d)) + bad + [] == Text(SavedLines(d)) + [Word(MaterialKeyword)];
    var r := l.(materials := l.materials[k := ReadMaterial(bad[1..]).value]);
    LoadedFromSlots(e, d);
    assert forall i :: 0 <= i < k ==> r.materials[i] == d.materials[i];
    UsedMaterialsUnique(r.materials, k);
    assert r.materials[..k] == d.materials[..k];
  }

  /** A fresh catalog saves to an empty file, and an empty file loads as a no-op that succeeds. */
  lemma EmptySceneSavesNothing()
    ensures SavedLines(EmptyScene()) == []
    ensures Text(SavedLines(EmptyScene())) == []
    ensures Run(EmptyScene(), [], 0) == (EmptyScene(), Loaded)
  {
  }
}

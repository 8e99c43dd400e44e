/**
 * The light probes of an evaluated scene, as the bake counts and gathers
 * them. The dependency graph's object iteration is a given sequence of
 * objects in evaluation order.
 */
module ProbeInventory {
  import opened Options

  datatype ProbeType = Cube | Planar | Grid

  /** The light-probe data block an object points to, identified by id;
      grid probes carry their sample resolution. */
  datatype LightProbe = LightProbe(id: nat, probeType: ProbeType,
                                   resolutionX: int, resolutionY: int, resolutionZ: int)

  /** An evaluated scene object: a light probe or anything else. */
  datatype SceneObject =
    | LightProbeObject(name: nat, probe: LightProbe)
    | OtherObject(name: nat)

  /** The compact record the probe-data conversion builds from a grid
      probe object (its content is not part of this model). */
  datatype GridData = GridDataOf(source: SceneObject)

  /** The compact record the probe-data conversion builds from a cube
      probe object (its content is not part of this model). */
  datatype CubeData = CubeDataOf(source: SceneObject)

  /** The light-probe data an object points to, if it is a probe. */
  function ProbeData(o: SceneObject): Option<LightProbe>
  {
    match o
    case LightProbeObject(_, p) => Some(p)
    case OtherObject(_) => None
  }

  /** The probe data of each object of g, in order. */
  function Pointers(g: seq<SceneObject>): (r: seq<Option<LightProbe>>)
    ensures |r| == |g|
  {
    seq(|g|, k requires 0 <= k < |g| => ProbeData(g[k]))
  }

  /** The grid records converted from each object of g, in order. */
  function GridRecords(g: seq<SceneObject>): (r: seq<GridData>)
    ensures |r| == |g|
  {
    seq(|g|, k requires 0 <= k < |g| => GridDataOf(g[k]))
  }

  /** The cube records converted from each object of g, in order. */
  function CubeRecords(g: seq<SceneObject>): (r: seq<CubeData>)
    ensures |r| == |g|
  {
    seq(|g|, k requires 0 <= k < |g| => CubeDataOf(g[k]))
  }

  predicate IsProbeOfType(o: SceneObject, t: ProbeType)
  {
    o.LightProbeObject? && o.probe.probeType == t
  }

  /** The objects of s that are light probes of type t, in order. */
  function Probes(s: seq<SceneObject>, t: ProbeType): seq<SceneObject>
    decreases |s|
  {
    if s == [] then []
    else Probes(s[..|s| - 1], t) + (if IsProbeOfType(s[|s| - 1], t) then [s[|s| - 1]] else [])
  }

  /** Irradiance samples of one grid probe. */
  function GridSamples(o: SceneObject): int
    requires o.LightProbeObject?
  {
    o.probe.resolutionX * o.probe.resolutionY * o.probe.resolutionZ
  }

  /** Sum of GridSamples over a sequence of probe objects. */
  function SumSamples(g: seq<SceneObject>): int
    requires forall o :: o in g ==> o.LightProbeObject?
    decreases |g|
  {
    if g == [] then 0 else SumSamples(g[..|g| - 1]) + GridSamples(g[|g| - 1])
  }

  /** Irradiance samples of every grid probe of s. */
  function TotalGridSamples(s: seq<SceneObject>): int
  {
    ProbesAreOfType(s, Grid);
    SumSamples(Probes(s, Grid))
  }

  /** Probes(s, t) holds exactly the type-t probes of s. */
  lemma {:induction false} ProbesAreOfType(s: seq<SceneObject>, t: ProbeType)
    ensures forall o :: o in Probes(s, t) <==> o in s && IsProbeOfType(o, t)
    ensures |Probes(s, t)| <= |s|
    decreases |s|
  {
    if s != [] {
      var init := s[..|s| - 1];
      ProbesAreOfType(init, t);
      assert s == init + [s[|s| - 1]];
    }
  }

  /** Extending the scan by one object extends the probe list by that
      object exactly when it is of the type. */
  lemma ProbesPrefix(s: seq<SceneObject>, i: nat, t: ProbeType)
    requires i < |s|
    ensures Probes(s[..i + 1], t) ==
            Probes(s[..i], t) + (if IsProbeOfType(s[i], t) then [s[i]] else [])
  {
    assert s[..i + 1][..i] == s[..i];
  }

  /** Extending the scan by one object adds its samples when it is a grid
      probe. */
  lemma TotalGridSamplesPrefix(s: seq<SceneObject>, i: nat)
    requires i < |s|
    ensures TotalGridSamples(s[..i + 1]) ==
            TotalGridSamples(s[..i]) + (if IsProbeOfType(s[i], Grid) then GridSamples(s[i]) else 0)
  {
    ProbesPrefix(s, i, Grid);
    var g := Probes(s[..i], Grid);
    ProbesAreOfType(s[..i], Grid);
    ProbesAreOfType(s[..i + 1], Grid);
    var g' := Probes(s[..i + 1], Grid);
    if IsProbeOfType(s[i], Grid) {
      assert g' == g + [s[i]] && g'[..|g|] == g;
      assert SumSamples(g') == SumSamples(g) + GridSamples(s[i]);
    } else {
      assert g' == g;
    }
  }

  /** Probe selection distributes over concatenation. */
  lemma {:induction false} ProbesAppend(a: seq<SceneObject>, b: seq<SceneObject>, t: ProbeType)
    ensures Probes(a + b, t) == Probes(a, t) + Probes(b, t)
    decreases |b|
  {
    if b == [] {
      assert a + b == a;
    } else {
      var b' := b[..|b| - 1];
      assert (a + b)[..|a + b| - 1] == a + b';
      ProbesAppend(a, b', t);
    }
  }

  /** Sample sums distribute over concatenation. */
  lemma {:induction false} SumSamplesAppend(g: seq<SceneObject>, h: seq<SceneObject>)
    requires forall o :: o in g ==> o.LightProbeObject?
    requires forall o :: o in h ==> o.LightProbeObject?
    ensures SumSamples(g + h) == SumSamples(g) + SumSamples(h)
    decreases |h|
  {
    if h == [] {
      assert g + h == g;
    } else {
      var h' := h[..|h| - 1];
      assert (g + h)[..|g + h| - 1] == g + h';
      SumSamplesAppend(g, h');
    }
  }

  /** An object that is neither a grid nor a cube probe (any other object
      or a planar probe) changes no count wherever it stands. */
  lemma IgnoredObject(a: seq<SceneObject>, o: SceneObject, b: seq<SceneObject>)
    requires !IsProbeOfType(o, Grid) && !IsProbeOfType(o, Cube)
    ensures Probes(a + [o] + b, Grid) == Probes(a + b, Grid)
    ensures Probes(a + [o] + b, Cube) == Probes(a + b, Cube)
    ensures TotalGridSamples(a + [o] + b) == TotalGridSamples(a + b)
  {
    forall t | t == Grid || t == Cube
      ensures Probes(a + [o] + b, t) == Probes(a + b, t)
    {
      ProbesAppend(a + [o], b, t);
      ProbesAppend(a, [o], t);
      ProbesAppend(a, b, t);
      assert Probes([o], t) == Probes([], t) + [];
    }
  }

  /** The grid samples of a scan split at any point add up. */
  lemma TotalGridSamplesAppend(a: seq<SceneObject>, b: seq<SceneObject>)
    ensures TotalGridSamples(a + b) == TotalGridSamples(a) + TotalGridSamples(b)
  {
    ProbesAppend(a, b, Grid);
    ProbesAreOfType(a, Grid);
    ProbesAreOfType(b, Grid);
    SumSamplesAppend(Probes(a, Grid), Probes(b, Grid));
  }

  /** A scene without grid or cube probes has nothing to count. */
  lemma {:induction false} NoProbesNothingCounted(s: seq<SceneObject>)
    requires forall o :: o in s ==> !IsProbeOfType(o, Grid) && !IsProbeOfType(o, Cube)
    ensures Probes(s, Grid) == [] && Probes(s, Cube) == [] && TotalGridSamples(s) == 0
    decreases |s|
  {
    if s != [] {
      var init := s[..|s| - 1];
      assert forall o :: o in init ==> o in s;
      NoProbesNothingCounted(init);
    }
  }

  /** One 4x4x4 grid probe and one cube probe. */
  lemma OneGridOneCube(g: LightProbe, c: LightProbe, n: nat, m: nat)
    requires g.probeType == Grid && g.resolutionX == 4 && g.resolutionY == 4 && g.resolutionZ == 4
    requires c.probeType == Cube
    ensures var s := [LightProbeObject(n, g), LightProbeObject(m, c)];
            Probes(s, Grid) == [s[0]] && Probes(s, Cube) == [s[1]] &&
            TotalGridSamples(s) == 64
  {
    var s := [LightProbeObject(n, g), LightProbeObject(m, c)];
    assert s[..1] == [s[0]] && s[..1][..0] == [];
    assert Probes(s[..1], Grid) == [s[0]];
    assert Probes(s[..1], Cube) == [];
    assert Probes(s, Grid) == Probes(s[..1], Grid);
    assert Probes(s, Cube) == Probes(s[..1], Cube) + [s[1]];
    assert SumSamples([s[0]]) == SumSamples([]) + 64;
  }

  /** A prefix of the scan holds no more probes of a type than the whole. */
  lemma ProbesPrefixCount(s: seq<SceneObject>, i: nat, t: ProbeType)
    requires i <= |s|
    ensures |Probes(s[..i], t)| <= |Probes(s, t)|
  {
    assert s == s[..i] + s[i..];
    ProbesAppend(s[..i], s[i..], t);
  }

  /** Converting one more object adds its pointer and its records. */
  lemma RecordsSnoc(g: seq<SceneObject>, o: SceneObject)
    ensures Pointers(g + [o]) == Pointers(g) + [ProbeData(o)]
    ensures GridRecords(g + [o]) == GridRecords(g) + [GridDataOf(o)]
    ensures CubeRecords(g + [o]) == CubeRecords(g) + [CubeDataOf(o)]
  {
  }
}

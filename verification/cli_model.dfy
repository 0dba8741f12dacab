/** The benchmark's object model as the command-line tools see it
    (fbksd_cli/model.py): techniques and their versions, the results of a
    version, and the per-class id counters that number new objects.

    Python object identity, which `is` compares, is an `ObjectId`; the
    object `None` is `Wrappers.None`. A version refers to its technique only
    through the technique's name, which is all that `get_name` reads. */
module CliModel {
  import opened Wrappers
  import opened Seqs

  /** The identity of a Python object. */
  type ObjectId = nat

  /** A TechniqueResult: the scene it was computed for and its samples per pixel. */
  datatype TechniqueResult = TechniqueResult(id: nat, scene: Option<ObjectId>, spp: int)

  /** A TechniqueVersion: the name of its technique (None before one is
      attached), its tag and its results in list order. */
  datatype TechniqueVersion = TechniqueVersion(
    id: nat, techniqueName: Option<string>, tag: string, results: seq<TechniqueResult>)

  datatype Technique = Technique(id: nat, name: string, versions: seq<TechniqueVersion>)

  /** Raised by Python when an attribute of `None` is read. */
  datatype AttributeError = NoneHasNoName

  /** `v.tag == tag`. */
  function TagIs(tag: string): TechniqueVersion -> bool
  {
    (v: TechniqueVersion) => v.tag == tag
  }

  /** `result.scene is scene`. */
  function SceneIs(scene: Option<ObjectId>): TechniqueResult -> bool
  {
    (r: TechniqueResult) => r.scene == scene
  }

  /** `result.scene is scene and result.spp == spp`. */
  function SceneAndSppAre(scene: Option<ObjectId>, spp: int): TechniqueResult -> bool
  {
    (r: TechniqueResult) => r.scene == scene && r.spp == spp
  }

  /** `Technique.get_version(tag)`: the first version, in list order, whose
      tag equals `tag`, or None when no version has that tag. */
  method GetVersion(t: Technique, tag: string) returns (r: Option<TechniqueVersion>)
    ensures r.None? <==> !AnyMatch(t.versions, TagIs(tag))
    ensures r.Some? ==> IsFirstMatch(t.versions, TagIs(tag), r.value)
  {
    var i := 0;
    while i < |t.versions|
      invariant 0 <= i <= |t.versions|
      invariant forall j :: 0 <= j < i ==> t.versions[j].tag != tag
    {
      if t.versions[i].tag == tag {
        return Some(t.versions[i]);
      }
      i := i + 1;
    }
    return None;
  }

  /** `TechniqueVersion.has_result(scene, spp)`: `any` of the list holding
      one `True` per matching result. */
  function HasResult(v: TechniqueVersion, scene: Option<ObjectId>, spp: int): (b: bool)
    ensures b <==> AnyMatch(v.results, SceneAndSppAre(scene, spp))
  {
    FilterHead(v.results, SceneAndSppAre(scene, spp));
    |Filter(v.results, SceneAndSppAre(scene, spp))| > 0
  }

  /** `TechniqueVersion.get_result(scene, spp)`: the head of the list of
      matching results, or None when that list is empty. */
  function GetResult(v: TechniqueVersion, scene: Option<ObjectId>, spp: int): (r: Option<TechniqueResult>)
    ensures r.None? <==> !HasResult(v, scene, spp)
    ensures r.Some? ==> IsFirstMatch(v.results, SceneAndSppAre(scene, spp), r.value)
  {
    var matching := Filter(v.results, SceneAndSppAre(scene, spp));
    FilterHead(v.results, SceneAndSppAre(scene, spp));
    if |matching| > 0 then Some(matching[0]) else None
  }

  /** `TechniqueVersion.get_results(scene)`: the loop that appends every
      result on `scene`, in list order. The result is the filtered list, so
      it is an order-preserving subsequence (`Seqs.FilterIsSubsequence`)
      holding each result on `scene` as often as `results` does
      (`Seqs.FilterMultiplicity`). */
  method GetResults(v: TechniqueVersion, scene: Option<ObjectId>) returns (r: seq<TechniqueResult>)
    ensures r == Filter(v.results, SceneIs(scene))
    ensures forall k :: 0 <= k < |r| ==> r[k].scene == scene
    ensures forall i :: 0 <= i < |v.results| && v.results[i].scene == scene ==> v.results[i] in r
    ensures forall x :: x in r ==> x in v.results
  {
    r := [];
    var i := 0;
    while i < |v.results|
      invariant 0 <= i <= |v.results|
      invariant r == Filter(v.results[..i], SceneIs(scene))
    {
      FilterAppend(v.results[..i], [v.results[i]], SceneIs(scene));
      assert v.results[..i + 1] == v.results[..i] + [v.results[i]];
      if v.results[i].scene == scene {
        r := r + [v.results[i]];
      }
      i := i + 1;
    }
    assert v.results[..i] == v.results;
  }

  /** `TechniqueVersion.get_name()`: the technique name, a dash, then the tag;
      reading the name of a missing technique raises. */
  function GetName(v: TechniqueVersion): (r: Result<string, AttributeError>)
    ensures r.Failure? <==> v.techniqueName.None?
    ensures r.Success? ==>
      var name := v.techniqueName.value;
      && |r.value| == |name| + 1 + |v.tag|
      && r.value[..|name|] == name
      && r.value[|name|] == '-'
      && r.value[|name| + 1..] == v.tag
  {
    match v.techniqueName
    case None => Failure(NoneHasNoName)
    case Some(name) => Success(name + "-" + v.tag)
  }

  /** Versions of the same technique have the same name only when they
      have the same tag, so the name identifies the version. */
  lemma GetNameDeterminesTag(v1: TechniqueVersion, v2: TechniqueVersion)
    requires v1.techniqueName.Some? && v1.techniqueName == v2.techniqueName
    requires GetName(v1) == GetName(v2)
    ensures v1.tag == v2.tag
  {
    var name := v1.techniqueName.value;
    assert v1.tag == GetName(v1).value[|name| + 1..];
  }

  /** When the technique name holds no dash, its first dash is the one
      `get_name` inserts: everything before it is the technique name and
      everything after it the tag. */
  lemma GetNameSplitsAtFirstDash(v: TechniqueVersion)
    requires v.techniqueName.Some? && '-' !in v.techniqueName.value
    ensures var n := GetName(v).value; var k := |v.techniqueName.value|;
      && k < |n| && n[k] == '-'
      && (forall j :: 0 <= j < k ==> n[j] != '-')
      && n[..k] == v.techniqueName.value && n[k + 1..] == v.tag
  {
    var n := GetName(v).value;
    var name := v.techniqueName.value;
    forall j | 0 <= j < |name|
      ensures n[j] != '-'
    {
      assert n[j] == n[..|name|][j] == name[j];
    }
  }

  /** The classes of model.py that number their objects with a private
      class-level `__nextId` counter. */
  datatype IdClass =
    | FilterClass | SamplerClass | FilterVersionClass | SamplerVersionClass
    | RendererClass | SceneClass | ImageRegionClass | RegionErrorClass
    | ResultClass | SamplerResultClass

  /** The next id of every class. */
  datatype IdCounters = IdCounters(next: map<IdClass, nat>)

  /** Every class has a counter. */
  predicate ValidCounters(c: IdCounters)
  {
    forall cls: IdClass :: cls in c.next
  }

  /** The counters when the module is loaded: `__nextId = 1` in every class. */
  function InitialCounters(): (c: IdCounters)
    ensures ValidCounters(c)
    ensures forall cls: IdClass :: c.next[cls] == 1
  {
    var c := IdCounters(map cls: IdClass | cls in AllClasses() :: 1);
    assert forall cls: IdClass :: cls in c.next by {
      forall cls: IdClass ensures cls in c.next { AllClassesListed(cls); }
    }
    c
  }

  lemma AllClassesListed(cls: IdClass)
    ensures cls in AllClasses()
  {
    match cls
    case FilterClass =>
    case SamplerClass =>
    case FilterVersionClass =>
    case SamplerVersionClass =>
    case RendererClass =>
    case SceneClass =>
    case ImageRegionClass =>
    case RegionErrorClass =>
    case ResultClass =>
    case SamplerResultClass =>
  }

  function AllClasses(): set<IdClass>
  {
    {FilterClass, SamplerClass, FilterVersionClass, SamplerVersionClass,
     RendererClass, SceneClass, ImageRegionClass, RegionErrorClass,
     ResultClass, SamplerResultClass}
  }

  /** Constructing an object of class `cls`: it receives the class's next id,
      and that counter, and only that one, goes up by one. */
  function Construct(c: IdCounters, cls: IdClass): (r: (nat, IdCounters))
    requires ValidCounters(c)
    ensures ValidCounters(r.1)
    ensures r.0 == c.next[cls]
    ensures r.1.next[cls] == r.0 + 1
    ensures forall other: IdClass :: other != cls ==> r.1.next[other] == c.next[other]
  {
    (c.next[cls], IdCounters(c.next[cls := c.next[cls] + 1]))
  }

  /** Constructing objects of the classes `classes`, in order: the ids they
      receive and the counters afterwards. */
  function ConstructAll(c: IdCounters, classes: seq<IdClass>): (r: (seq<nat>, IdCounters))
    requires ValidCounters(c)
    ensures |r.0| == |classes|
    ensures ValidCounters(r.1)
    decreases |classes|
  {
    if |classes| == 0 then ([], c)
    else
      var (id, c') := Construct(c, classes[0]);
      var (ids, c'') := ConstructAll(c', classes[1..]);
      ([id] + ids, c'')
  }

  /** The i-th construction receives its class's starting id plus the number
      of earlier constructions of the same class. */
  lemma {:induction false} ConstructAllIds(c: IdCounters, classes: seq<IdClass>, i: nat)
    requires ValidCounters(c) && i < |classes|
    ensures ConstructAll(c, classes).0[i] == c.next[classes[i]] + multiset(classes[..i])[classes[i]]
    decreases |classes|
  {
    var (id, c') := Construct(c, classes[0]);
    var rest := classes[1..];
    assert ConstructAll(c, classes).0 == [id] + ConstructAll(c', rest).0;
    if i > 0 {
      ConstructAllIds(c', rest, i - 1);
      assert classes[..i] == [classes[0]] + rest[..i - 1];
      assert classes[i] == rest[i - 1];
      assert multiset(classes[..i]) == multiset([classes[0]]) + multiset(rest[..i - 1]);
    }
  }

  /** Each counter ends up advanced by the number of constructions of its class. */
  lemma {:induction false} ConstructAllCounters(c: IdCounters, classes: seq<IdClass>, cls: IdClass)
    requires ValidCounters(c)
    ensures ConstructAll(c, classes).1.next[cls] == c.next[cls] + multiset(classes)[cls]
    decreases |classes|
  {
    if |classes| > 0 {
      var (id, c') := Construct(c, classes[0]);
      var rest := classes[1..];
      ConstructAllCounters(c', rest, cls);
      assert ConstructAll(c, classes).1 == ConstructAll(c', rest).1;
      assert classes == [classes[0]] + rest;
      assert multiset(classes) == multiset([classes[0]]) + multiset(rest);
    }
  }

  /** An element occurring at index i is counted once more in every longer prefix. */
  lemma PrefixCountGrows(classes: seq<IdClass>, i: nat, j: nat)
    requires i < j <= |classes|
    ensures multiset(classes[..i])[classes[i]] < multiset(classes[..j])[classes[i]]
  {
    assert classes[..j] == classes[..i] + classes[i..j];
    assert classes[i] in classes[i..j];
    assert multiset(classes[..j]) == multiset(classes[..i]) + multiset(classes[i..j]);
  }

  /** From the initial counters, the objects of each class are numbered
      1, 2, 3, ... in construction order, independently of the other classes;
      so within one class later objects get strictly larger ids. */
  lemma IdsCountUpPerClass(classes: seq<IdClass>)
    ensures forall i :: 0 <= i < |classes| ==>
      ConstructAll(InitialCounters(), classes).0[i] == 1 + multiset(classes[..i])[classes[i]]
    ensures forall i, j :: 0 <= i < j < |classes| && classes[i] == classes[j] ==>
      ConstructAll(InitialCounters(), classes).0[i] < ConstructAll(InitialCounters(), classes).0[j]
  {
    var c := InitialCounters();
    var ids := ConstructAll(c, classes).0;
    forall i | 0 <= i < |classes|
      ensures ids[i] == 1 + multiset(classes[..i])[classes[i]]
    {
      ConstructAllIds(c, classes, i);
    }
    forall i, j | 0 <= i < j < |classes| && classes[i] == classes[j]
      ensures ids[i] < ids[j]
    {
      PrefixCountGrows(classes, i, j);
    }
  }
}

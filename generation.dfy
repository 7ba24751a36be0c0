/** `generatePaths`: load the global configuration, validate and generate every path
    of profiles.json into a map, and only then post-process each entry and write its
    two CSV files. The libraries it calls (`String.toDouble`, Pathfinder's `generate`
    and `TankModifier.modify`) are parameters; writing a file is an entry in the log
    of written files. */
module Generation {
  import opened Results
  import opened Errors
  import opened JsonValues
  import opened GlobalConfig
  import opened Trajectories
  import opened PathSpecs

  /** The library code `generatePaths` calls into. */
  datatype Library = Library(
    toDouble: string -> Option<real>,
    generate: (seq<Waypoint>, TrajectoryConfig) -> Trajectory,
    tankModify: (Trajectory, real) -> TankPair)

  /** The private `Path` data class: a generated trajectory, its flip flag and the
      wheelbase the tank modifier is to use. */
  datatype Path = Path(trajectory: Trajectory, flip: bool, wheelbase: real)

  /** One `writeToCSV` call: the file name inside generated/ and its trajectory. */
  datatype CsvFile = CsvFile(name: string, trajectory: Trajectory)

  /** What a call of `generatePaths` leaves behind: the files it wrote, in order, and
      the exception it ended with, if any. */
  datatype Outcome = Outcome(written: seq<CsvFile>, error: Option<Error>)

  /** `order` visits every key of `keys` exactly once (a HashMap iteration order). */
  ghost predicate IsOrdering(order: seq<string>, keys: set<string>) {
    && (forall i, j :: 0 <= i < j < |order| ==> order[i] != order[j])
    && (forall k :: k in keys <==> k in order)
  }

  function ObjectKeys(doc: Json): set<string> {
    if doc.JObject? then doc.fields.Keys else {}
  }

  /** `Path(generate(points, config), flip, wheelbase)`. */
  function Generated(spec: PathSpec, lib: Library): Path {
    Path(lib.generate(spec.points, spec.config), spec.flip, spec.wheelbase)
  }

  /** One iteration of the first loop: resolve the item at `key` (`obj(key)` reads
      an absent key as null) and generate its trajectory. */
  function PathStep(fields: JsonObj, s: Settings, lib: Library): string -> Result<Path, Error> {
    key =>
      match ResolvePath(key, Get(fields, key), s)
      case Success(spec) => Success(Generated(spec, lib))
      case Failure(e) => Failure(e)
  }

  /** The first loop: the `paths` map after visiting `keys` in order, each through
      `step`, or the first error met. */
  function PlanPaths(keys: seq<string>, step: string -> Result<Path, Error>): (r: Result<map<string, Path>, Error>)
    ensures r.Success? ==> forall k :: k in r.value <==> k in keys
  {
    if keys == [] then Success(map[])
    else
      var paths :- PlanPaths(keys[..|keys| - 1], step);
      var key := keys[|keys| - 1];
      var path :- step(key);
      Success(paths[key := path])
  }

  /** Post-processing of one entry: tank-modify, flip if asked, two files. */
  function PathFiles(name: string, p: Path, lib: Library): seq<CsvFile> {
    var sides := FlipSides(lib.tankModify(p.trajectory, p.wheelbase), p.flip);
    [CsvFile(name + "_left.csv", sides.left), CsvFile(name + "_right.csv", sides.right)]
  }

  /** The second loop: the files written after visiting `names` in order. */
  function WriteAll(names: seq<string>, paths: map<string, Path>, lib: Library): (r: seq<CsvFile>)
    requires forall k :: k in names ==> k in paths
    ensures |r| == 2 * |names|
  {
    if names == [] then []
    else WriteAll(names[..|names| - 1], paths, lib) + PathFiles(names[|names| - 1], paths[names[|names| - 1]], lib)
  }

  /** The whole of `generatePaths`: nothing is written unless the configuration and
      every path are valid. */
  function GeneratePathsSpec(props: Properties, doc: Json, keyOrder: seq<string>, entryOrder: seq<string>, lib: Library): Outcome
    requires IsOrdering(keyOrder, ObjectKeys(doc)) && IsOrdering(entryOrder, ObjectKeys(doc))
  {
    match ParseSettings(props, lib.toDouble)
    case Failure(e) => Outcome([], Some(e))
    case Success(s) =>
      if !doc.JObject? then Outcome([], Some(DocumentNotObject))
      else
        match PlanPaths(keyOrder, PathStep(doc.fields, s, lib))
        case Failure(e) => Outcome([], Some(e))
        case Success(paths) => Outcome(WriteAll(entryOrder, paths, lib), None)
  }

  /** Helper for `GenerateWritesEveryPath`: unfolds `PathStep` at a key of the document. */
  lemma PathStepResolves(fields: JsonObj, s: Settings, lib: Library, key: string)
    requires key in fields
    ensures PathStep(fields, s, lib)(key).Success? <==> ResolvePath(key, fields[key], s).Success?
    ensures PathStep(fields, s, lib)(key).Success? ==>
              PathStep(fields, s, lib)(key).value == Generated(ResolvePath(key, fields[key], s).value, lib)
  {
    assert Get(fields, key) == fields[key];
  }

  /** A prefix that fails makes the whole first loop fail with the same error. */
  lemma {:induction false} PlanPathsPrefixFailure(keys: seq<string>, step: string -> Result<Path, Error>, n: nat)
    requires n <= |keys| && PlanPaths(keys[..n], step).Failure?
    ensures PlanPaths(keys, step) == PlanPaths(keys[..n], step)
  {
    if n < |keys| {
      var m := |keys| - 1;
      assert keys[..m][..n] == keys[..n];
      PlanPathsPrefixFailure(keys[..m], step, n);
    } else {
      assert keys[..n] == keys;
    }
  }

  /** The first loop succeeds exactly when the step of every key succeeds. */
  lemma {:induction false} PlanPathsSucceeds(keys: seq<string>, step: string -> Result<Path, Error>)
    ensures PlanPaths(keys, step).Success? <==> forall k :: k in keys ==> step(k).Success?
  {
    if keys != [] {
      var n := |keys| - 1;
      PlanPathsSucceeds(keys[..n], step);
      assert forall k :: k in keys <==> k in keys[..n] || k == keys[n];
    }
  }

  /** After a successful first loop each key maps to what its own step yields. */
  lemma {:induction false} PlanPathsValues(keys: seq<string>, step: string -> Result<Path, Error>, k: string)
    requires PlanPaths(keys, step).Success? && k in keys
    ensures step(k).Success? && PlanPaths(keys, step).value[k] == step(k).value
  {
    var n := |keys| - 1;
    var last := keys[n];
    if k != last {
      assert k in keys[..n] by {
        var j :| 0 <= j < |keys| && keys[j] == k;
        assert j < n && keys[..n][j] == k;
      }
      PlanPathsValues(keys[..n], step, k);
    }
  }

  /** A failure of the first loop is the error of the step of one of its keys. */
  lemma {:induction false} PlanPathsError(keys: seq<string>, step: string -> Result<Path, Error>)
    requires PlanPaths(keys, step).Failure?
    ensures exists k :: k in keys && step(k) == Failure(PlanPaths(keys, step).error)
  {
    var n := |keys| - 1;
    if PlanPaths(keys[..n], step).Failure? {
      PlanPathsError(keys[..n], step);
      var k :| k in keys[..n] && step(k) == Failure(PlanPaths(keys[..n], step).error);
      assert k in keys;
    } else {
      assert keys[n] in keys;
    }
  }

  /** File `2i` and `2i + 1` of the log are the left and right file of the `i`-th name. */
  lemma {:induction false} WriteAllAt(names: seq<string>, paths: map<string, Path>, lib: Library, i: nat)
    requires forall k :: k in names ==> k in paths
    requires i < |names|
    ensures WriteAll(names, paths, lib)[2 * i] == PathFiles(names[i], paths[names[i]], lib)[0]
    ensures WriteAll(names, paths, lib)[2 * i + 1] == PathFiles(names[i], paths[names[i]], lib)[1]
  {
    var n := |names| - 1;
    if i < n {
      assert names[..n][i] == names[i];
      WriteAllAt(names[..n], paths, lib, i);
    }
  }

  /** The first loop of `generatePaths`, filling the mutable `paths` map. */
  method BuildPaths(keys: seq<string>, fields: JsonObj, s: Settings, lib: Library)
    returns (r: Result<map<string, Path>, Error>)
    ensures r == PlanPaths(keys, PathStep(fields, s, lib))
  {
    ghost var step := PathStep(fields, s, lib);
    var paths: map<string, Path> := map[];
    var i := 0;
    while i < |keys|
      invariant 0 <= i <= |keys|
      invariant PlanPaths(keys[..i], step) == Success(paths)
    {
      var key := keys[i];
      assert keys[..i + 1][..i] == keys[..i];
      var spec := ParsePath(key, Get(fields, key), s);
      if spec.Failure? {
        assert step(key) == Failure(spec.error);
        PlanPathsPrefixFailure(keys, step, i + 1);
        return Failure(spec.error);
      }
      assert step(key) == Success(Generated(spec.value, lib));
      paths := paths[key := Generated(spec.value, lib)];
      i := i + 1;
    }
    assert keys[..i] == keys;
    return Success(paths);
  }

  /** The second loop of `generatePaths`: post-process each entry and write its files. */
  method WriteFiles(names: seq<string>, paths: map<string, Path>, lib: Library) returns (written: seq<CsvFile>)
    requires forall k :: k in names ==> k in paths
    ensures written == WriteAll(names, paths, lib)
  {
    written := [];
    var j := 0;
    while j < |names|
      invariant 0 <= j <= |names|
      invariant written == WriteAll(names[..j], paths, lib)
    {
      var name := names[j];
      var path := paths[name];
      var sides := FlipSides(lib.tankModify(path.trajectory, path.wheelbase), path.flip);
      assert names[..j + 1][..j] == names[..j];
      written := written + [CsvFile(name + "_left.csv", sides.left), CsvFile(name + "_right.csv", sides.right)];
      j := j + 1;
    }
    assert names[..j] == names;
  }

  /** `generatePaths` as statements: the second loop is entered only once the first
      has finished without an exception. */
  method GeneratePaths(props: Properties, doc: Json, keyOrder: seq<string>, entryOrder: seq<string>, lib: Library)
    returns (out: Outcome)
    requires IsOrdering(keyOrder, ObjectKeys(doc)) && IsOrdering(entryOrder, ObjectKeys(doc))
    ensures out == GeneratePathsSpec(props, doc, keyOrder, entryOrder, lib)
    ensures out.error.Some? ==> out.written == []
    ensures out.error.None? ==> |out.written| == 2 * |entryOrder|
  {
    var settings := ParseSettings(props, lib.toDouble);
    if settings.Failure? {
      return Outcome([], Some(settings.error));
    }
    if !doc.JObject? {
      return Outcome([], Some(DocumentNotObject));
    }
    var paths := BuildPaths(keyOrder, doc.fields, settings.value, lib);
    if paths.Failure? {
      return Outcome([], Some(paths.error));
    }
    var written := WriteFiles(entryOrder, paths.value, lib);
    return Outcome(written, None);
  }

  /** All or nothing: a run that ends in an error has written no file. */
  lemma GenerateErrorWritesNothing(props: Properties, doc: Json, keyOrder: seq<string>, entryOrder: seq<string>, lib: Library)
    requires IsOrdering(keyOrder, ObjectKeys(doc)) && IsOrdering(entryOrder, ObjectKeys(doc))
    requires GeneratePathsSpec(props, doc, keyOrder, entryOrder, lib).error.Some?
    ensures GeneratePathsSpec(props, doc, keyOrder, entryOrder, lib).written == []
  {
  }

  /** A run without an error writes, for every path of the document, its left and
      right file, holding the tank pair of the trajectory generated from that path's
      own specification, flipped when the path says so. */
  lemma GenerateWritesEveryPath(props: Properties, doc: Json, keyOrder: seq<string>, entryOrder: seq<string>, lib: Library, i: nat)
    requires IsOrdering(keyOrder, ObjectKeys(doc)) && IsOrdering(entryOrder, ObjectKeys(doc))
    requires GeneratePathsSpec(props, doc, keyOrder, entryOrder, lib).error.None?
    requires i < |entryOrder|
    ensures ParseSettings(props, lib.toDouble).Success? && doc.JObject?
    ensures var spec := ResolvePath(entryOrder[i], doc.fields[entryOrder[i]], ParseSettings(props, lib.toDouble).value);
            && spec.Success?
            && var files := PathFiles(entryOrder[i], Generated(spec.value, lib), lib);
               && GeneratePathsSpec(props, doc, keyOrder, entryOrder, lib).written[2 * i] == files[0]
               && GeneratePathsSpec(props, doc, keyOrder, entryOrder, lib).written[2 * i + 1] == files[1]
  {
    var out := GeneratePathsSpec(props, doc, keyOrder, entryOrder, lib);
    var s := ParseSettings(props, lib.toDouble).value;
    var fields := doc.fields;
    var plan := PlanPaths(keyOrder, PathStep(fields, s, lib));
    assert plan.Success? && out.written == WriteAll(entryOrder, plan.value, lib);
    var name := entryOrder[i];
    assert name in keyOrder;
    PlanPathsValues(keyOrder, PathStep(fields, s, lib), name);
    PathStepResolves(fields, s, lib, name);
    WriteAllAt(entryOrder, plan.value, lib, i);
  }

  /** A run without an error writes exactly two files per path. */
  lemma GenerateFileCount(props: Properties, doc: Json, keyOrder: seq<string>, entryOrder: seq<string>, lib: Library)
    requires IsOrdering(keyOrder, ObjectKeys(doc)) && IsOrdering(entryOrder, ObjectKeys(doc))
    requires GeneratePathsSpec(props, doc, keyOrder, entryOrder, lib).error.None?
    ensures doc.JObject? && |GeneratePathsSpec(props, doc, keyOrder, entryOrder, lib).written| == 2 * |doc.fields|
  {
    OrderingSize(entryOrder, doc.fields.Keys);
  }

  /** An ordering of a key set is as long as the set is large. */
  lemma {:induction false} OrderingSize(order: seq<string>, keys: set<string>)
    requires IsOrdering(order, keys)
    ensures |order| == |keys|
  {
    if order != [] {
      var n := |order| - 1;
      var last := order[n];
      assert IsOrdering(order[..n], keys - {last}) by {
        forall k ensures k in keys - {last} <==> k in order[..n] {
          if k in order[..n] {
            var j :| 0 <= j < n && order[..n][j] == k;
            assert order[j] != order[n];
          }
          if k in order && k != last {
            var j :| 0 <= j < |order| && order[j] == k;
            assert j != n && order[..n][j] == k;
          }
        }
      }
      OrderingSize(order[..n], keys - {last});
    } else {
      assert forall k :: k !in keys;
      assert keys == {};
    }
  }
}

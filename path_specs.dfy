/** One entry of profiles.json turned into what `generate` needs: the mandatory
    `flip` flag, the overrides merged onto the global configuration, and the
    waypoints, checked one by one in index order. */
module PathSpecs {
  import opened Results
  import opened Errors
  import opened JsonValues
  import opened GlobalConfig
  import opened Overrides

  /** `jaci.pathfinder.Waypoint`. */
  datatype Waypoint = Waypoint(x: real, y: real, angle: real)

  /** A validated path, ready for generation. */
  datatype PathSpec = PathSpec(points: seq<Waypoint>, config: TrajectoryConfig, flip: bool, wheelbase: real)

  /** `profilesJson.obj(key) ?: throw ...`. */
  function PathObject(key: string, v: Json): Result<JsonObj, Error> {
    match AsObject(v)
    case Present(o) => Success(o)
    case Absent => Failure(ItemNotObject(key))
    case Mistyped => Failure(ItemMistyped(key))
  }

  /** `path.boolean("flip") ?: paramError("flip", key)`. */
  function FlipFlag(key: string, o: JsonObj): Result<bool, Error> {
    match AsBool(Get(o, "flip"))
    case Present(b) => Success(b)
    case Absent => Failure(ParameterError("flip", key))
    case Mistyped => Failure(ParameterMistyped("flip", key))
  }

  /** `path.array<JsonObject>("points") ... ?: paramError("points", key)`. */
  function PointsArray(key: string, o: JsonObj): Result<seq<Json>, Error> {
    match AsArray(Get(o, "points"))
    case Present(elems) => Success(elems)
    case Absent => Failure(ParameterError("points", key))
    case Mistyped => Failure(ParameterMistyped("points", key))
  }

  /** The body of `forEachIndexed` for point `i`: `x`, `y` and `angle` are read in
      that order through `goodDouble` (whose escaping exception aborts at once), then
      a missing one is reported with the point's index. */
  function ParsePoint(key: string, i: nat, elem: Json): Result<Waypoint, Error> {
    match AsObject(elem)
    case Present(p) =>
      var x := GoodDouble(p, "x");
      if x.Mistyped? then Failure(PointMistyped(key, i, "x")) else
      var y := GoodDouble(p, "y");
      if y.Mistyped? then Failure(PointMistyped(key, i, "y")) else
      var angle := GoodDouble(p, "angle");
      if angle.Mistyped? then Failure(PointMistyped(key, i, "angle"))
      else if x.Present? && y.Present? && angle.Present? then Success(Waypoint(x.value, y.value, angle.value))
      else Failure(PointInvalid(key, i))
    case _ => Failure(PointMistyped(key, i, ""))
  }

  /** The waypoint list built by the loop: points in index order, stopping at the
      first point that fails. */
  function ParseWaypoints(key: string, elems: seq<Json>): (r: Result<seq<Waypoint>, Error>)
    ensures r.Success? ==> |r.value| == |elems|
  {
    if elems == [] then Success([])
    else
      var done :- ParseWaypoints(key, elems[..|elems| - 1]);
      var w :- ParsePoint(key, |elems| - 1, elems[|elems| - 1]);
      Success(done + [w])
  }

  /** On success the list has one waypoint per array element, in the same order,
      each read from its own element. */
  lemma {:induction false} ParseWaypointsInOrder(key: string, elems: seq<Json>, i: nat)
    requires ParseWaypoints(key, elems).Success? && i < |elems|
    ensures ParsePoint(key, i, elems[i]) == Success(ParseWaypoints(key, elems).value[i])
  {
    var n := |elems| - 1;
    if i < n {
      assert elems[..n][i] == elems[i];
      ParseWaypointsInOrder(key, elems[..n], i);
    }
  }

  /** The list fails exactly at the first point that fails, with that point's error. */
  lemma {:induction false} ParseWaypointsFirstError(key: string, elems: seq<Json>, i: nat)
    requires i < |elems|
    requires forall j :: 0 <= j < i ==> ParsePoint(key, j, elems[j]).Success?
    requires ParsePoint(key, i, elems[i]).Failure?
    ensures ParseWaypoints(key, elems) == Failure(ParsePoint(key, i, elems[i]).error)
  {
    var n := |elems| - 1;
    if i == n {
      ParseWaypointsAllValid(key, elems[..n]);
    } else {
      assert elems[..n][i] == elems[i];
      assert forall j :: 0 <= j < i ==> elems[..n][j] == elems[j];
      ParseWaypointsFirstError(key, elems[..n], i);
    }
  }

  /** A point object lacking a numeric `x`, `y` or `angle` (absent or null), with no
      coordinate of the wrong type, is reported with the path key and its index. */
  lemma MissingCoordinate(key: string, i: nat, p: JsonObj)
    requires !GoodDouble(p, "x").Mistyped? && !GoodDouble(p, "y").Mistyped? && !GoodDouble(p, "angle").Mistyped?
    requires GoodDouble(p, "x").Absent? || GoodDouble(p, "y").Absent? || GoodDouble(p, "angle").Absent?
    ensures ParsePoint(key, i, JObject(p)) == Failure(PointInvalid(key, i))
  {
  }

  /** If every point is valid the list is accepted; an empty array is accepted too. */
  lemma {:induction false} ParseWaypointsAllValid(key: string, elems: seq<Json>)
    requires forall j :: 0 <= j < |elems| ==> ParsePoint(key, j, elems[j]).Success?
    ensures ParseWaypoints(key, elems).Success?
  {
    if elems != [] {
      var n := |elems| - 1;
      assert forall j :: 0 <= j < n ==> elems[..n][j] == elems[j];
      ParseWaypointsAllValid(key, elems[..n]);
    }
  }

  /** A failing prefix makes the whole list fail with the same error. */
  lemma {:induction false} ParseWaypointsPrefixFailure(key: string, elems: seq<Json>, n: nat)
    requires n <= |elems| && ParseWaypoints(key, elems[..n]).Failure?
    ensures ParseWaypoints(key, elems) == ParseWaypoints(key, elems[..n])
  {
    if n < |elems| {
      var m := |elems| - 1;
      assert elems[..m][..n] == elems[..n];
      ParseWaypointsPrefixFailure(key, elems[..m], n);
    } else {
      assert elems[..n] == elems;
    }
  }

  /** The `forEachIndexed` loop appending to the `LinkedList` of points. */
  method CollectWaypoints(key: string, elems: seq<Json>) returns (r: Result<seq<Waypoint>, Error>)
    ensures r == ParseWaypoints(key, elems)
  {
    var points: seq<Waypoint> := [];
    var i := 0;
    while i < |elems|
      invariant 0 <= i <= |elems|
      invariant ParseWaypoints(key, elems[..i]) == Success(points)
    {
      var point := ParsePoint(key, i, elems[i]);
      assert elems[..i + 1][..i] == elems[..i];
      if point.Failure? {
        ParseWaypointsPrefixFailure(key, elems, i + 1);
        return Failure(point.error);
      }
      points := points + [point.value];
      i := i + 1;
    }
    assert elems[..i] == elems;
    return Success(points);
  }

  /** One iteration of the first loop of `generatePaths`, up to the call of
      `generate`. Errors come in the order the source meets them. */
  function ResolvePath(key: string, v: Json, s: Settings): Result<PathSpec, Error> {
    var o :- PathObject(key, v);
    var flip :- FlipFlag(key, o);
    var overrides :- ResolveOverrides(key, o);
    var elems :- PointsArray(key, o);
    var points :- ParseWaypoints(key, elems);
    var merged := Merge(s, overrides);
    Success(PathSpec(points, merged.config, flip, merged.wheelbase))
  }

  /** The same iteration as statements, with the waypoint loop inside. */
  method ParsePath(key: string, v: Json, s: Settings) returns (r: Result<PathSpec, Error>)
    ensures r == ResolvePath(key, v, s)
  {
    var o := PathObject(key, v);
    if o.Failure? {
      return Failure(o.error);
    }
    var flip := FlipFlag(key, o.value);
    if flip.Failure? {
      return Failure(flip.error);
    }
    var overrides := ResolveOverrides(key, o.value);
    if overrides.Failure? {
      return Failure(overrides.error);
    }
    var elems := PointsArray(key, o.value);
    if elems.Failure? {
      return Failure(elems.error);
    }
    var points := CollectWaypoints(key, elems.value);
    if points.Failure? {
      return Failure(points.error);
    }
    var merged := Merge(s, overrides.value);
    return Success(PathSpec(points.value, merged.config, flip.value, merged.wheelbase));
  }

  /** A missing `flip` or `points` is an error naming the parameter and the path. */
  lemma MandatoryParameters(key: string, o: JsonObj, s: Settings)
    ensures Get(o, "flip") == JNull ==>
              ResolvePath(key, JObject(o), s) == Failure(ParameterError("flip", key))
    ensures Get(o, "flip").JBool? && ResolveFitMethod(key, o).Success? && Get(o, "points") == JNull ==>
              ResolvePath(key, JObject(o), s) == Failure(ParameterError("points", key))
  {
  }

  /** A path that passes validation is generated with the merged configuration and
      with exactly the waypoints of its `points` array. */
  lemma ResolvedPathContents(key: string, o: JsonObj, s: Settings)
    requires ResolvePath(key, JObject(o), s).Success?
    ensures var p := ResolvePath(key, JObject(o), s).value;
            && Get(o, "flip") == JBool(p.flip)
            && ResolveOverrides(key, o).Success?
            && Merge(s, ResolveOverrides(key, o).value) == Resolved(p.config, p.wheelbase)
            && Get(o, "points").JArray?
            && |p.points| == |Get(o, "points").elems|
            && forall i :: 0 <= i < |p.points| ==>
                 ParsePoint(key, i, Get(o, "points").elems[i]) == Success(p.points[i])
  {
    var p := ResolvePath(key, JObject(o), s).value;
    var elems := Get(o, "points").elems;
    forall i | 0 <= i < |p.points|
      ensures ParsePoint(key, i, elems[i]) == Success(p.points[i])
    {
      ParseWaypointsInOrder(key, elems, i);
    }
  }
}

/** Per-path overrides of the global configuration (the optional keys of a path object
    in profiles.json) and the merge that builds the configuration a path is generated
    with. An override that is absent, or of the wrong type, or an unknown literal,
    leaves the global value in place; only a non-string `fitMethod` aborts, because
    that accessor has no catch. */
module Overrides {
  import opened Results
  import opened Errors
  import opened JsonValues
  import opened Numbers
  import opened GlobalConfig

  /** How one override key resolved: a value to use, or the global default, with
      `warned` telling whether a "reverting to default" warning was printed. */
  datatype Override<T> = Given(value: T) | Fallback(warned: bool) {
    /** The `?:` of the merge. */
    function Or(default: T): T {
      match this
      case Given(v) => v
      case Fallback(_) => default
    }
  }

  datatype Overrides = Overrides(
    fitMethod: Override<FitMethod>,
    samples: Override<int>,
    dt: Override<real>,
    maxVel: Override<real>,
    maxAccel: Override<real>,
    maxJerk: Override<real>,
    wheelbase: Override<real>)

  /** The configuration `generate` is called with, and the wheelbase kept for the
      tank modifier. */
  datatype Resolved = Resolved(config: TrajectoryConfig, wheelbase: real)

  /** The `fitMethod` override: a literal applies, any other string falls back with a
      warning, a non-string escapes as ClassCastException. */
  function ResolveFitMethod(key: string, o: JsonObj): Result<Override<FitMethod>, Error> {
    match AsString(Get(o, "fitMethod"))
    case Absent => Success(Fallback(false))
    case Mistyped => Failure(ParameterMistyped("fitMethod", key))
    case Present(text) =>
      match ParseFitMethod(text)
      case Some(m) => Success(Given(m))
      case None => Success(Fallback(true))
  }

  /** The `samples` override: read as a string, and on ClassCastException as an Int;
      only a density literal or an Int applies. */
  function ResolveSamples(o: JsonObj): Override<int> {
    match AsString(Get(o, "samples"))
    case Present(text) =>
      (match NamedSamples(text)
       case Some(n) => Given(n)
       case None => Fallback(false))
    case Absent => Fallback(false)
    case Mistyped =>
      match AsInt(Get(o, "samples"))
      case Present(n) => Given(n)
      case _ => Fallback(true)
  }

  /** A numeric override through `goodDouble`, whose ClassCastException is caught. */
  function ResolveNumber(o: JsonObj, name: string): Override<real> {
    match GoodDouble(o, name)
    case Present(d) => Given(d)
    case _ => Fallback(false)
  }

  /** All seven overrides, in the order `generatePaths` reads them. */
  function ResolveOverrides(key: string, o: JsonObj): Result<Overrides, Error> {
    var fit :- ResolveFitMethod(key, o);
    Success(Overrides(
      fit,
      ResolveSamples(o),
      ResolveNumber(o, "dt"),
      ResolveNumber(o, "maxVel"),
      ResolveNumber(o, "maxAccel"),
      ResolveNumber(o, "maxJerk"),
      ResolveNumber(o, "wheelbase")))
  }

  /** The `Trajectory.Config(... ?: config!!. ...)` and `wheelbase ?: width!!` merge. */
  function Merge(s: Settings, o: Overrides): Resolved {
    Resolved(
      TrajectoryConfig(
        o.fitMethod.Or(s.config.fit),
        o.samples.Or(s.config.sampleCount),
        o.dt.Or(s.config.dt),
        o.maxVel.Or(s.config.maxVelocity),
        o.maxAccel.Or(s.config.maxAcceleration),
        o.maxJerk.Or(s.config.maxJerk)),
      o.wheelbase.Or(s.width))
  }

  /** Nothing overridden. */
  predicate NoneGiven(o: Overrides) {
    && o.fitMethod.Fallback? && o.samples.Fallback? && o.dt.Fallback?
    && o.maxVel.Fallback? && o.maxAccel.Fallback? && o.maxJerk.Fallback? && o.wheelbase.Fallback?
  }

  const OverrideKeys: seq<string> := ["fitMethod", "samples", "dt", "maxVel", "maxAccel", "maxJerk", "wheelbase"]

  /** A `fitMethod` override applies exactly for the two literals, aborts exactly for
      a non-null non-string, and otherwise falls back. */
  lemma FitMethodOverrideShapes(key: string, o: JsonObj, m: FitMethod)
    ensures ResolveFitMethod(key, o) == Success(Given(m)) <==>
              Get(o, "fitMethod") == JString(if m == HermiteCubic then "HERMITE_CUBIC" else "HERMITE_QUINTIC")
    ensures ResolveFitMethod(key, o).Failure? <==>
              !(Get(o, "fitMethod").JNull? || Get(o, "fitMethod").JString?)
  {
  }

  /** A `samples` override applies exactly for a density literal or a JSON `Int`;
      an integer beyond 32 bits falls back with a warning, and a string of digits
      such as "1000" falls back, unlike in the global file. */
  lemma SamplesOverrideShapes(o: JsonObj, n: int)
    ensures ResolveSamples(o) == Given(n) <==>
              (Get(o, "samples") == JInt(n) && InInt32(n)) ||
              (Get(o, "samples").JString? && NamedSamples(Get(o, "samples").s) == Some(n))
    ensures ResolveSamples(o) == Fallback(true) <==>
              !(Get(o, "samples").JNull? || Get(o, "samples").JString? ||
                (Get(o, "samples").JInt? && InInt32(Get(o, "samples").i)))
  {
  }

  lemma DigitStringSamplesDiffer()
    ensures ResolveSamples(map["samples" := JString("1000")]) == Fallback(false)
    ensures ParseGlobalSamples("1000") == Some(1000)
  {
    assert NatToString(1000) == "1000" by {
      assert NatToString(1) == "1";
      assert NatToString(10) == "10";
      assert NatToString(100) == "100";
    }
    GlobalSamplesAccepts(1000);
  }

  /** A numeric override applies exactly for a JSON double or an `Int` (widened). */
  lemma NumberOverrideShapes(o: JsonObj, name: string, d: real)
    ensures ResolveNumber(o, name) == Given(d) <==>
              Get(o, name) == JDouble(d) ||
              (Get(o, name).JInt? && InInt32(Get(o, name).i) && Get(o, name).i as real == d)
  {
    GoodDoubleShapes(o, name, d);
  }

  /** A path object without any override key resolves to no override at all. */
  lemma NoOverrideKeys(key: string, o: JsonObj)
    requires forall k :: k in OverrideKeys ==> k !in o
    ensures ResolveOverrides(key, o).Success?
    ensures NoneGiven(ResolveOverrides(key, o).value)
  {
    assert "fitMethod" !in o && "samples" !in o && "dt" !in o && "maxVel" !in o;
    assert "maxAccel" !in o && "maxJerk" !in o && "wheelbase" !in o;
  }

  /** Each merged field is the override when there is one, else the global value. */
  lemma MergeFieldwise(s: Settings, o: Overrides)
    ensures Merge(s, o).config.fit == (if o.fitMethod.Given? then o.fitMethod.value else s.config.fit)
    ensures Merge(s, o).config.sampleCount == (if o.samples.Given? then o.samples.value else s.config.sampleCount)
    ensures Merge(s, o).config.dt == (if o.dt.Given? then o.dt.value else s.config.dt)
    ensures Merge(s, o).config.maxVelocity == (if o.maxVel.Given? then o.maxVel.value else s.config.maxVelocity)
    ensures Merge(s, o).config.maxAcceleration ==
              (if o.maxAccel.Given? then o.maxAccel.value else s.config.maxAcceleration)
    ensures Merge(s, o).config.maxJerk == (if o.maxJerk.Given? then o.maxJerk.value else s.config.maxJerk)
    ensures Merge(s, o).wheelbase == (if o.wheelbase.Given? then o.wheelbase.value else s.width)
  {
  }

  /** With no override the path is generated with the global configuration and the
      global wheelbase. */
  lemma MergeWithoutOverrides(s: Settings, o: Overrides)
    requires NoneGiven(o)
    ensures Merge(s, o) == Resolved(s.config, s.width)
  {
  }

  /** Changing one override changes only the corresponding field of the merge. */
  lemma MergeOneField(s: Settings, o: Overrides, fit: Override<FitMethod>, samples: Override<int>, v: Override<real>)
    ensures Merge(s, o.(fitMethod := fit)) ==
              Merge(s, o).(config := Merge(s, o).config.(fit := fit.Or(s.config.fit)))
    ensures Merge(s, o.(samples := samples)) ==
              Merge(s, o).(config := Merge(s, o).config.(sampleCount := samples.Or(s.config.sampleCount)))
    ensures Merge(s, o.(dt := v)) ==
              Merge(s, o).(config := Merge(s, o).config.(dt := v.Or(s.config.dt)))
    ensures Merge(s, o.(maxVel := v)) ==
              Merge(s, o).(config := Merge(s, o).config.(maxVelocity := v.Or(s.config.maxVelocity)))
    ensures Merge(s, o.(maxAccel := v)) ==
              Merge(s, o).(config := Merge(s, o).config.(maxAcceleration := v.Or(s.config.maxAcceleration)))
    ensures Merge(s, o.(maxJerk := v)) ==
              Merge(s, o).(config := Merge(s, o).config.(maxJerk := v.Or(s.config.maxJerk)))
    ensures Merge(s, o.(wheelbase := v)) ==
              Merge(s, o).(wheelbase := v.Or(s.width))
  {
  }
}

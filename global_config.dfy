/** The global motion configuration loaded from trajectory.properties at the top of
    `generatePaths`: every key is required, `fitMethod` and `samples` must name a
    known value, and the numeric keys go through `String.toDouble()`. */
module GlobalConfig {
  import opened Results
  import opened Errors
  import opened Numbers

  /** `Trajectory.FitMethod`. */
  datatype FitMethod = HermiteCubic | HermiteQuintic

  /** Pathfinder's named sample densities (`Trajectory.Config.SAMPLES_*`). */
  const SAMPLES_FAST: int := 1000
  const SAMPLES_LOW: int := 10000
  const SAMPLES_HIGH: int := 100000

  /** `Trajectory.Config`, the input of `generate`. */
  datatype TrajectoryConfig = TrajectoryConfig(
    fit: FitMethod,
    sampleCount: int,
    dt: real,
    maxVelocity: real,
    maxAcceleration: real,
    maxJerk: real)

  /** The loaded configuration together with the global wheelbase (`width`). */
  datatype Settings = Settings(config: TrajectoryConfig, width: real)

  /** The key/value pairs `java.util.Properties.load` read from the file. */
  type Properties = map<string, string>

  /** `String.toDouble()`: a partial conversion, null standing for NumberFormatException. */
  type DoubleParser = string -> Option<real>

  /** The keys `generatePaths` reads, in the order it reads them. */
  const RequiredKeys: seq<string> := ["fitMethod", "samples", "dt", "maxVel", "maxAccel", "maxJerk", "wheelbase"]

  /** The keys converted with `toDouble`. */
  const NumericKeys: seq<string> := ["dt", "maxVel", "maxAccel", "maxJerk", "wheelbase"]

  /** The two fit-method literals, used by the global file and by overrides alike. */
  function ParseFitMethod(text: string): Option<FitMethod> {
    if text == "HERMITE_CUBIC" then Some(HermiteCubic)
    else if text == "HERMITE_QUINTIC" then Some(HermiteQuintic)
    else None
  }

  /** The three sample-density literals. */
  function NamedSamples(text: string): Option<int> {
    if text == "HIGH" then Some(SAMPLES_HIGH)
    else if text == "LOW" then Some(SAMPLES_LOW)
    else if text == "FAST" then Some(SAMPLES_FAST)
    else None
  }

  /** The global `samples`: a density literal, else any text `toIntOrNull` accepts. */
  function ParseGlobalSamples(text: string): Option<int> {
    match NamedSamples(text)
    case Some(n) => Some(n)
    case None => ParseIntOrNull(text)
  }

  /** `Properties.getPropertyOrExit`. */
  function GetPropertyOrExit(props: Properties, name: string): (r: Result<string, Error>)
    ensures r.Success? <==> name in props
    ensures r.Success? ==> r.value == props[name]
    ensures r.Failure? ==> r.error == MissingProperty(name)
  {
    if name in props then Success(props[name]) else Failure(MissingProperty(name))
  }

  /** `getPropertyOrExit(name).toDouble()`. */
  function PropertyDouble(props: Properties, name: string, toDouble: DoubleParser): Result<real, Error> {
    var text :- GetPropertyOrExit(props, name);
    match toDouble(text)
    case Some(d) => Success(d)
    case None => Failure(InvalidNumber(name, text))
  }

  /** The `Properties().apply { ... }` block: the arguments of `Trajectory.Config` are
      evaluated left to right, then `wheelbase`; the first failure aborts. */
  function ParseSettings(props: Properties, toDouble: DoubleParser): Result<Settings, Error> {
    var fitText :- GetPropertyOrExit(props, "fitMethod");
    var fit :- match ParseFitMethod(fitText)
               case Some(m) => Success(m)
               case None => Failure(InvalidFitMethod(fitText));
    var samplesText :- GetPropertyOrExit(props, "samples");
    var samples :- match ParseGlobalSamples(samplesText)
                   case Some(n) => Success(n)
                   case None => Failure(InvalidSampleAmount(samplesText));
    var dt :- PropertyDouble(props, "dt", toDouble);
    var maxVel :- PropertyDouble(props, "maxVel", toDouble);
    var maxAccel :- PropertyDouble(props, "maxAccel", toDouble);
    var maxJerk :- PropertyDouble(props, "maxJerk", toDouble);
    var width :- PropertyDouble(props, "wheelbase", toDouble);
    Success(Settings(TrajectoryConfig(fit, samples, dt, maxVel, maxAccel, maxJerk), width))
  }

  /** `s` is what the properties file says: every key present and each value
      converted as its key demands. */
  ghost predicate Describes(props: Properties, toDouble: DoubleParser, s: Settings) {
    && (forall k :: k in RequiredKeys ==> k in props)
    && ParseFitMethod(props["fitMethod"]) == Some(s.config.fit)
    && ParseGlobalSamples(props["samples"]) == Some(s.config.sampleCount)
    && toDouble(props["dt"]) == Some(s.config.dt)
    && toDouble(props["maxVel"]) == Some(s.config.maxVelocity)
    && toDouble(props["maxAccel"]) == Some(s.config.maxAcceleration)
    && toDouble(props["maxJerk"]) == Some(s.config.maxJerk)
    && toDouble(props["wheelbase"]) == Some(s.width)
  }

  /** `e` is a faithful report about the file: a missing key that is required, or the
      text of a present key that its conversion refuses. */
  ghost predicate Explains(props: Properties, toDouble: DoubleParser, e: Error) {
    match e
    case MissingProperty(name) => name in RequiredKeys && name !in props
    case InvalidFitMethod(text) =>
      "fitMethod" in props && props["fitMethod"] == text && ParseFitMethod(text) == None
    case InvalidSampleAmount(text) =>
      "samples" in props && props["samples"] == text && ParseGlobalSamples(text) == None
    case InvalidNumber(name, text) =>
      name in NumericKeys && name in props && props[name] == text && toDouble(text) == None
    case _ => false
  }

  /** Loading succeeds exactly when the file describes a configuration, and then
      yields that configuration. */
  lemma ParseSettingsSound(props: Properties, toDouble: DoubleParser)
    ensures ParseSettings(props, toDouble).Success? ==>
              Describes(props, toDouble, ParseSettings(props, toDouble).value)
  {
  }

  lemma ParseSettingsComplete(props: Properties, toDouble: DoubleParser, s: Settings)
    requires Describes(props, toDouble, s)
    ensures ParseSettings(props, toDouble) == Success(s)
  {
    assert "fitMethod" in props && "samples" in props && "dt" in props && "maxVel" in props;
    assert "maxAccel" in props && "maxJerk" in props && "wheelbase" in props;
  }

  /** Every failure names a required key that is missing or a value that is refused. */
  lemma ParseSettingsFailure(props: Properties, toDouble: DoubleParser)
    ensures ParseSettings(props, toDouble).Failure? ==>
              Explains(props, toDouble, ParseSettings(props, toDouble).error)
  {
    var r := ParseSettings(props, toDouble);
    if r.Failure? {
      if "fitMethod" !in props || ParseFitMethod(props["fitMethod"]).None? {
      } else if "samples" !in props || ParseGlobalSamples(props["samples"]).None? {
      } else if "dt" !in props || toDouble(props["dt"]).None? {
      } else if "maxVel" !in props || toDouble(props["maxVel"]).None? {
      } else if "maxAccel" !in props || toDouble(props["maxAccel"]).None? {
      } else if "maxJerk" !in props || toDouble(props["maxJerk"]).None? {
      } else {
        assert "wheelbase" !in props || toDouble(props["wheelbase"]).None?;
      }
    }
  }

  /** In particular a missing key is always an error. */
  lemma MissingKeyFails(props: Properties, toDouble: DoubleParser, k: string)
    requires k in RequiredKeys && k !in props
    ensures ParseSettings(props, toDouble).Failure?
  {
    ParseSettingsSound(props, toDouble);
  }

  /** A required key whose value its conversion accepts. */
  ghost predicate Converts(props: Properties, toDouble: DoubleParser, key: string) {
    && key in props
    && (key == "fitMethod" ==> ParseFitMethod(props[key]).Some?)
    && (key == "samples" ==> ParseGlobalSamples(props[key]).Some?)
    && (key in NumericKeys ==> toDouble(props[key]).Some?)
  }

  /** A missing key is an error naming that key: when every key read before it is
      present and valid, loading fails with `MissingProperty` of exactly that key. */
  lemma FirstMissingKeyNamed(props: Properties, toDouble: DoubleParser, n: nat)
    requires n < |RequiredKeys| && RequiredKeys[n] !in props
    requires forall j :: 0 <= j < n ==> Converts(props, toDouble, RequiredKeys[j])
    ensures ParseSettings(props, toDouble) == Failure(MissingProperty(RequiredKeys[n]))
  {
    if n > 0 { assert Converts(props, toDouble, RequiredKeys[0]); }
    if n > 1 { assert Converts(props, toDouble, RequiredKeys[1]); }
    if n > 2 { assert Converts(props, toDouble, RequiredKeys[2]); }
    if n > 3 { assert Converts(props, toDouble, RequiredKeys[3]); }
    if n > 4 { assert Converts(props, toDouble, RequiredKeys[4]); }
    if n > 5 { assert Converts(props, toDouble, RequiredKeys[5]); }
  }

  /** The global `samples` takes the three literals and every `Int` in decimal,
      with no sign or positivity check. */
  lemma GlobalSamplesAccepts(n: int)
    requires InInt32(n)
    ensures ParseGlobalSamples(IntToString(n)) == Some(n)
  {
    ParseIntToString(n);
    var s := IntToString(n);
    assert |s| > 0 && (IsDigit(s[0]) || s[0] == '-');
    assert s != "HIGH" && s != "LOW" && s != "FAST" by {
      assert "HIGH"[0] == 'H' && "LOW"[0] == 'L' && "FAST"[0] == 'F';
    }
  }
}

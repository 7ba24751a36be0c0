# profilegen decision and configuration layer in Dafny

This project models the part of the 1540 profile generator (`Main.kt`) that makes
decisions. The generator turns named robot paths in `profiles.json` into left and right
wheel motion profiles (CSV files in `generated/`). It uses the motion limits in
`trajectory.properties` as global defaults. The model covers:

- **Regeneration gate** (`main`). It reads the two-line hash record, compares it with
  the fresh file hashes and checks whether the `generated/` folder is empty. From that
  it decides whether to regenerate. After a regeneration that returns normally, it
  rewrites the record in the order it reads it.
- **Global configuration**. Every key is required. `fitMethod` is one of two literals.
  `samples` is a density literal or anything `toIntOrNull` accepts. The numeric keys
  go through `String.toDouble()`.
- **Per-path resolution**. `flip` and `points` are mandatory. The seven optional
  overrides each resolve to a value or fall back to the global default. The merged
  configuration is passed to `generate`. Waypoints are checked in index order.
- **Flip post-processing**. With `flip`, the sides swap and x, y, position, velocity,
  acceleration and jerk are negated. `dt` and `heading` are kept.
- **All-or-nothing ordering**. Every path is validated and generated before the first
  CSV file is written.

Modules:

- `Results`: Option and Result.
- `Errors`: every exception the modelled code raises.
- `Numbers`: `toIntOrNull` and `Int.toString`.
- `JsonValues`: JSON values, Klaxon's typed accessors and `goodDouble`.
- `Trajectories`: segments and the flip.
- `GlobalConfig`: loading `trajectory.properties`.
- `Overrides`: override resolution and the merge.
- `PathSpecs`: one path entry, including the waypoint loop.
- `Generation`: `generatePaths`.
- `Regeneration`: `main`.

These parts of the source change local state step by step, so they are modelled as
methods, each proved equal to a specification function:

- the waypoint loop (`CollectWaypoints`);
- one path iteration (`ParsePath`);
- the two loops of `generatePaths`: the path loop (`BuildPaths`) and the write loop
  (`WriteFiles`), run in that order by `GeneratePaths`;
- the branching of `main` (`Run`).

The library calls are not modelled. `String.toDouble`, Pathfinder's `generate` and
`TankModifier.modify` are function-valued fields of `Generation.Library`, so the model
holds for any implementation of them. File hashes are abstract integers, and a file
that cannot be read gives `None`. The `generated/` folder's emptiness is an input. A
written CSV file is an entry `CsvFile(name, trajectory)` in the log a run returns.

Behaviour of the code a reader might not expect, which the model follows:

- The hash record's line 0 holds the hash of `profiles.json` and line 1 the hash of
  `trajectory.properties`. The code's variables `propertiesHash` and `profileHash` are
  named the other way round (Main.kt lines 31-32).
- The global `samples` accepts any `Int`, including zero and negative values. There is
  no positivity check (Main.kt line 72).
- An empty `points` array is accepted; nothing checks its length (lines 150-160).
- The flip keeps `heading` and does not negate it (lines 188 and 199).
- In a path entry, these values escape as uncaught exceptions, because the typed
  accessor that reads them has no `catch` (lines 89, 92, 94, 151-154):
  - a non-boolean `flip`, a non-string `fitMethod`, a non-array `points`;
  - a point that is not an object;
  - a coordinate of the wrong type.

  These become the errors `ParameterMistyped`, `PointMistyped` and `ItemMistyped`.
- Wrong-typed numeric overrides, and unknown `samples` strings, fall back without a
  warning. Only an unknown `fitMethod` string and a `samples` value that is neither a
  string nor an `Int` print one (`Fallback(true)`).
- A record of one line whose line differs from the fresh hash regenerates, because line
  0 is compared first. An empty record, or a one-line record whose line matches, ends
  in an index error.

## Model

| member | source | states |
|---|---|---|
| `Numbers.ParseIntOrNull` | src/main/kotlin/org/team1540/profilegen/Main.kt:72 | a text `toIntOrNull` accepts denotes a value within 32-bit `Int` range |
| `Numbers.ParseIntToString` | src/main/kotlin/org/team1540/profilegen/Main.kt:72 | every `Int` written in decimal by `toString` is read back by `toIntOrNull` as the same number |
| `Numbers.IntToStringInjective` | src/main/kotlin/org/team1540/profilegen/Main.kt:37-38 | distinct hashes have distinct decimal texts, so comparing record lines as strings compares the hashes |
| `Numbers.ParseNegativeSample` | src/main/kotlin/org/team1540/profilegen/Main.kt:72 | `toIntOrNull` accepts a negative number ("-5"), so the global `samples` has no positivity check |
| `JsonValues.GoodDoubleShapes` | src/main/kotlin/org/team1540/profilegen/Main.kt:219-225 | `goodDouble` yields a JSON double as it is, or a JSON `Int` widened. It yields null exactly for an absent key or JSON null, and throws exactly for every other value, an integer beyond 32 bits (a `Long`) included |
| `Trajectories.NoFlipUnchanged` | src/main/kotlin/org/team1540/profilegen/Main.kt:201-204 | without `flip` both trajectories pass through unchanged |
| `Trajectories.FlipSwapsAndNegates` | src/main/kotlin/org/team1540/profilegen/Main.kt:178-200 | with `flip`, each new side is built from the other old side, with the same segment count. Each segment keeps `dt` and `heading`, and x, y, position, velocity, acceleration and jerk change sign |
| `Trajectories.MirroredTwice` | src/main/kotlin/org/team1540/profilegen/Main.kt:179-189 | negating a side's segments twice gives back the side |
| `Trajectories.FlipTwice` | src/main/kotlin/org/team1540/profilegen/Main.kt:178-204 | applying the flip twice gives back the original pair |
| `GlobalConfig.FirstMissingKeyNamed` | src/main/kotlin/org/team1540/profilegen/Main.kt:214-215 | when every key read before it is present and valid, a missing key makes loading fail with the error naming exactly that key |
| `GlobalConfig.ParseSettingsSound` | src/main/kotlin/org/team1540/profilegen/Main.kt:60-82 | a loaded configuration has every required key present. Its fit method is one of the two literals and its sample count a density literal or a `toIntOrNull` value. Each number is the `toDouble` of its key's text |
| `GlobalConfig.ParseSettingsComplete` | src/main/kotlin/org/team1540/profilegen/Main.kt:60-82 | a file that describes a configuration loads to exactly that configuration |
| `GlobalConfig.ParseSettingsFailure` | src/main/kotlin/org/team1540/profilegen/Main.kt:63-81 | every loading error names a required key that is missing, or quotes the text of a present key that its conversion refuses |
| `GlobalConfig.MissingKeyFails` | src/main/kotlin/org/team1540/profilegen/Main.kt:214-215 | a missing required key always makes loading fail |
| `GlobalConfig.GlobalSamplesAccepts` | src/main/kotlin/org/team1540/profilegen/Main.kt:68-74 | the global `samples` accepts every `Int` written in decimal, whatever its sign |
| `Overrides.FitMethodOverrideShapes` | src/main/kotlin/org/team1540/profilegen/Main.kt:94-99 | a `fitMethod` override applies exactly for the string of its literal. It aborts exactly for a non-null non-string, and otherwise falls back |
| `Overrides.SamplesOverrideShapes` | src/main/kotlin/org/team1540/profilegen/Main.kt:101-117 | a `samples` override applies exactly for a JSON `Int` or a density literal. It falls back with a warning exactly for a value that is neither null, a string nor an `Int` (an integer beyond 32 bits included) |
| `Overrides.DigitStringSamplesDiffer` | src/main/kotlin/org/team1540/profilegen/Main.kt:68-117 | the text "1000" falls back as a `samples` override, while the global file accepts it as 1000 |
| `Overrides.NumberOverrideShapes` | src/main/kotlin/org/team1540/profilegen/Main.kt:119-148 | a numeric override applies exactly for a JSON double, or for an `Int` converted to double. Every other value falls back |
| `Overrides.NoOverrideKeys` | src/main/kotlin/org/team1540/profilegen/Main.kt:94-148 | a path object with none of the seven override keys resolves without error and overrides nothing |
| `Overrides.MergeFieldwise` | src/main/kotlin/org/team1540/profilegen/Main.kt:161-169 | each merged field, and the wheelbase, is the override when one applies and the global value otherwise |
| `Overrides.MergeWithoutOverrides` | src/main/kotlin/org/team1540/profilegen/Main.kt:161-169 | with no override the configuration is the global one and the wheelbase the global width |
| `Overrides.MergeOneField` | src/main/kotlin/org/team1540/profilegen/Main.kt:161-169 | changing any one of the seven overrides changes only the corresponding field of the merge (or the wheelbase) |
| `PathSpecs.ParseWaypoints` | src/main/kotlin/org/team1540/profilegen/Main.kt:150-160 | an accepted waypoint list has one waypoint per element of the `points` array |
| `PathSpecs.ParseWaypointsInOrder` | src/main/kotlin/org/team1540/profilegen/Main.kt:150-160 | waypoint `i` of an accepted list is the one read from element `i`, so order is kept |
| `PathSpecs.MissingCoordinate` | src/main/kotlin/org/team1540/profilegen/Main.kt:152-158 | a point lacking `x`, `y` or `angle` is an error naming the path key and the point index |
| `PathSpecs.ParseWaypointsFirstError` | src/main/kotlin/org/team1540/profilegen/Main.kt:151-159 | the list fails with the error of the first point that fails |
| `PathSpecs.ParseWaypointsAllValid` | src/main/kotlin/org/team1540/profilegen/Main.kt:150-160 | a list whose every point is valid is accepted, the empty array included |
| `PathSpecs.ParseWaypointsPrefixFailure` | src/main/kotlin/org/team1540/profilegen/Main.kt:151-159 | once a prefix fails, later points do not change the error |
| `PathSpecs.CollectWaypoints` | src/main/kotlin/org/team1540/profilegen/Main.kt:150-160 | the `forEachIndexed` loop that appends to the point list yields exactly the waypoint list or first error above |
| `PathSpecs.ParsePath` | src/main/kotlin/org/team1540/profilegen/Main.kt:89-160 | one iteration of the path loop produces the object, flip, override and waypoint errors in the source's order, or the validated path |
| `PathSpecs.MandatoryParameters` | src/main/kotlin/org/team1540/profilegen/Main.kt:92-160 | a missing `flip`, or a missing `points`, is an error naming that parameter and the path key |
| `PathSpecs.ResolvedPathContents` | src/main/kotlin/org/team1540/profilegen/Main.kt:92-169 | a validated path has the entry's `flip` and the merge of its overrides. Its waypoints come from its `points` array, one per element and in order |
| `Generation.PlanPaths` | src/main/kotlin/org/team1540/profilegen/Main.kt:86-170 | the map filled by the path loop has exactly the visited keys |
| `Generation.BuildPaths` | src/main/kotlin/org/team1540/profilegen/Main.kt:86-170 | the loop that fills the mutable `paths` map yields exactly the map, or first error, of the path loop |
| `Generation.WriteFiles` | src/main/kotlin/org/team1540/profilegen/Main.kt:173-209 | the post-processing loop appends exactly the files of each visited entry, in order |
| `Generation.WriteAll` | src/main/kotlin/org/team1540/profilegen/Main.kt:173-209 | the write loop writes exactly two files per visited path |
| `Generation.PlanPathsPrefixFailure` | src/main/kotlin/org/team1540/profilegen/Main.kt:88-170 | once a path fails, the loop ends with that path's error |
| `Generation.PlanPathsSucceeds` | src/main/kotlin/org/team1540/profilegen/Main.kt:88-170 | the path loop succeeds exactly when the iteration of every key succeeds |
| `Generation.PlanPathsValues` | src/main/kotlin/org/team1540/profilegen/Main.kt:88-170 | after a successful path loop each key maps to what its own iteration produced |
| `Generation.PlanPathsError` | src/main/kotlin/org/team1540/profilegen/Main.kt:88-170 | a failing path loop reports the error of the iteration of one of its keys |
| `Generation.WriteAllAt` | src/main/kotlin/org/team1540/profilegen/Main.kt:206-208 | files `2i` and `2i+1` are the left and right file of the `i`-th path visited |
| `Generation.GeneratePaths` | src/main/kotlin/org/team1540/profilegen/Main.kt:56-210 | the two loops compute the outcome. A run that ends in an error wrote nothing, and one without an error wrote two files per path |
| `Generation.GenerateErrorWritesNothing` | src/main/kotlin/org/team1540/profilegen/Main.kt:88-209 | all or nothing: an error in the configuration or in any path means no CSV file is written |
| `Generation.GenerateWritesEveryPath` | src/main/kotlin/org/team1540/profilegen/Main.kt:161-209 | after a run without an error, every path validated. Its two files hold the tank pair of the trajectory generated from it, flipped when it says so |
| `Generation.GenerateFileCount` | src/main/kotlin/org/team1540/profilegen/Main.kt:173-209 | a run without an error writes exactly two files per entry of profiles.json |
| `Generation.OrderingSize` | src/main/kotlin/org/team1540/profilegen/Main.kt:173 | an iteration order over the path map visits as many entries as the map has keys |
| `Regeneration.Run` | src/main/kotlin/org/team1540/profilegen/Main.kt:20-54 | `main` computes its outcome. The record changes only through a regeneration that ended normally, and every such regeneration rewrites it to the fresh pair in the order read. An error means no file was written |
| `Regeneration.RegenerateExactly` | src/main/kotlin/org/team1540/profilegen/Main.kt:30-53 | with both files readable and a full record, regeneration happens exactly when: the record is absent, line 0 differs from the profiles.json hash, line 1 differs from the trajectory.properties hash, or the folder is empty. Otherwise nothing is regenerated |
| `Regeneration.RecordOnlyAfterSuccess` | src/main/kotlin/org/team1540/profilegen/Main.kt:37-50 | the record is rewritten exactly after a regeneration that returned normally, to the fresh hashes in the order they are compared. An error writes no CSV file, and a run that does not regenerate writes nothing at all |
| `Regeneration.RerunIsUpToDate` | src/main/kotlin/org/team1540/profilegen/Main.kt:229-234 | right after a successful regeneration, a rerun with unchanged hashes and a non-empty folder regenerates nothing and keeps the record |
| `Regeneration.RegenerationFillsFolder` | src/main/kotlin/org/team1540/profilegen/Main.kt:207-208 | a successful regeneration writes two files per path, so the folder is non-empty whenever the document has a path |
| `Regeneration.ChangeIsDetected` | src/main/kotlin/org/team1540/profilegen/Main.kt:37-42 | once a hash pair is recorded, a run whose files hash differently regenerates |
| `Regeneration.ShortRecord` | src/main/kotlin/org/team1540/profilegen/Main.kt:37-38 | a short record is no trigger of its own. Line 0 is compared first, and indexing a missing line ends the run in an error |

## Left out

- File system I/O: `mkdir`, `readLines`, `FileInputStream`, `printWriter`, `readBytes`. These are inputs (hashes, the record lines, the folder-empty flag, the parsed files) and outputs (the written-file log, the record afterwards).
- `Arrays.hashCode` over file bytes: a hash is an abstract integer. Its arithmetic is not modelled.
- Klaxon's JSON parser and `java.util.Properties.load`: their results are inputs, a `Json` value and a string map. Parse exceptions (Main.kt line 87) are not modelled. An integer beyond 32 bits, which Klaxon hands over as a `Long`, is modelled as the wrong type for `int(...)`: as a `samples` override it falls back with a warning, and as a coordinate or numeric override it makes `goodDouble` throw.
- `String.toDouble()`: a partial conversion passed in as a parameter. NaN, infinities and floating-point rounding are not modelled; doubles are exact reals.
- `Numbers.ParseIntOrNull`: accepts ASCII digits only. Kotlin's `toIntOrNull` also accepts other Unicode decimal digits.
- Pathfinder's `generate`, `TankModifier.modify` and `writeToCSV`: the first two are uninterpreted functions. A CSV write is a log entry. CSV formatting and write failures are not modelled.
- Pathfinder's sample constants are taken as 1000 (`FAST`), 10000 (`LOW`) and 100000 (`HIGH`). That library is not part of this model.
- Log output (`println`): the notices are not modelled. A "reverting to default" warning is only the `warned` flag of `Overrides.Override.Fallback`. The mislabelled "Overriding maxJerk" notice for `wheelbase` is therefore not visible.
- The iteration order of the parsed object's keys (Main.kt line 88) and of the `paths` HashMap's entries (Main.kt line 173): both loops take it as a parameter. The only assumption is that the order visits every key once.
- The NullPointerException when `File("generated").list()` returns null because `generated` is not a directory (Main.kt line 39) is not modelled; the folder's emptiness is an input.
- Exceptions thrown inside `generate`, `TankModifier.modify` or `writeToCSV` (Main.kt lines 161, 174, 207-208) are not modelled: these calls always return.
- A `FileNotFoundException` raised inside `generatePaths` after the hashes were computed (the files vanishing mid-run) is not modelled.

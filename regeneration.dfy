/** `main`: decide from the stored hash record, the fresh hashes and the state of the
    generated/ folder whether to run `generatePaths`, and rewrite the record after a
    run that returned normally. File hashes are abstract `Int`s, `None` when the file
    cannot be read. The record's line 0 holds the hash of profiles.json and line 1 the
    hash of trajectory.properties; Main.kt keeps them in variables named the other way
    round (`propertiesHash` and `profileHash`) but reads and writes them in this order. */
module Regeneration {
  import opened Results
  import opened Errors
  import opened Numbers
  import opened JsonValues
  import opened GlobalConfig
  import opened Generation

  datatype Decision =
    /** A hash could not be computed ("files not found"); nothing happens. */
    | InputsMissing
    | Regenerate
    /** "Profile settings have not changed". */
    | UpToDate
    /** The record is too short for the line `main` indexes next. */
    | RecordTooShort(index: nat)

  /** The lines `writeHashesToFile` prints. */
  function HashRecord(profilesHash: int, propertiesHash: int): seq<string> {
    [IntToString(profilesHash), IntToString(propertiesHash)]
  }

  /** The branches of `main`, in the order its conditions are evaluated. */
  function Decide(profilesHash: Option<int>, propertiesHash: Option<int>, record: Option<seq<string>>, generatedEmpty: bool): Decision {
    if profilesHash.None? || propertiesHash.None? then InputsMissing
    else if record.None? then Regenerate
    else
      var lines := record.value;
      if |lines| == 0 then RecordTooShort(0)
      else if lines[0] != IntToString(profilesHash.value) then Regenerate
      else if |lines| == 1 then RecordTooShort(1)
      else if lines[1] != IntToString(propertiesHash.value) || generatedEmpty then Regenerate
      else UpToDate
  }

  /** Everything `main` reads besides the hashes. */
  datatype Inputs = Inputs(props: Properties, doc: Json, keyOrder: seq<string>, entryOrder: seq<string>, lib: Library)

  ghost predicate WellOrdered(inp: Inputs) {
    IsOrdering(inp.keyOrder, ObjectKeys(inp.doc)) && IsOrdering(inp.entryOrder, ObjectKeys(inp.doc))
  }

  /** What a run leaves: its decision, the CSV files written, the hash record file
      afterwards (`None` if there is none), and the exception it ended with. */
  datatype RunResult = RunResult(decision: Decision, written: seq<CsvFile>, record: Option<seq<string>>, error: Option<Error>)

  function RunSpec(profilesHash: Option<int>, propertiesHash: Option<int>, record: Option<seq<string>>, generatedEmpty: bool, inp: Inputs): RunResult
    requires WellOrdered(inp)
  {
    var decision := Decide(profilesHash, propertiesHash, record, generatedEmpty);
    match decision
    case Regenerate =>
      var gen := GeneratePathsSpec(inp.props, inp.doc, inp.keyOrder, inp.entryOrder, inp.lib);
      if gen.error.Some? then RunResult(decision, gen.written, record, gen.error)
      else RunResult(decision, gen.written, Some(HashRecord(profilesHash.value, propertiesHash.value)), None)
    case RecordTooShort(i) => RunResult(decision, [], record, Some(HashRecordTooShort(i)))
    case _ => RunResult(decision, [], record, None)
  }

  /** `main` as statements around the side-effecting calls. */
  method Run(profilesHash: Option<int>, propertiesHash: Option<int>, record: Option<seq<string>>, generatedEmpty: bool, inp: Inputs)
    returns (out: RunResult)
    requires WellOrdered(inp)
    ensures out == RunSpec(profilesHash, propertiesHash, record, generatedEmpty, inp)
    ensures out.record != record ==>
              out.decision == Regenerate && out.error.None? &&
              out.record == Some(HashRecord(profilesHash.value, propertiesHash.value))
    ensures out.decision == Regenerate && out.error.None? ==>
              out.record == Some(HashRecord(profilesHash.value, propertiesHash.value))
    ensures out.error.Some? ==> out.written == []
  {
    if profilesHash.None? || propertiesHash.None? {
      return RunResult(InputsMissing, [], record, None);
    }
    var decision := Decide(profilesHash, propertiesHash, record, generatedEmpty);
    if decision.RecordTooShort? {
      return RunResult(decision, [], record, Some(HashRecordTooShort(decision.index)));
    }
    if decision == UpToDate {
      return RunResult(decision, [], record, None);
    }
    var gen := GeneratePaths(inp.props, inp.doc, inp.keyOrder, inp.entryOrder, inp.lib);
    if gen.error.Some? {
      return RunResult(decision, gen.written, record, gen.error);
    }
    var newRecord := HashRecord(profilesHash.value, propertiesHash.value);
    return RunResult(decision, gen.written, Some(newRecord), None);
  }

  /** With both inputs readable and a record of at least two lines, regeneration
      happens exactly when a stored hash differs from the fresh one or the generated
      folder is empty; an absent record always regenerates. */
  lemma RegenerateExactly(profilesHash: int, propertiesHash: int, record: Option<seq<string>>, generatedEmpty: bool)
    requires record.Some? ==> |record.value| >= 2
    ensures Decide(Some(profilesHash), Some(propertiesHash), record, generatedEmpty) == Regenerate <==>
              || record.None?
              || record.value[0] != IntToString(profilesHash)
              || record.value[1] != IntToString(propertiesHash)
              || generatedEmpty
    ensures Decide(Some(profilesHash), Some(propertiesHash), record, generatedEmpty) != Regenerate ==>
              Decide(Some(profilesHash), Some(propertiesHash), record, generatedEmpty) == UpToDate
  {
  }

  /** The record is rewritten exactly by a regeneration that ended normally, with
      the fresh hashes in the order they are compared; a run that ends in an error
      writes no CSV file. */
  lemma RecordOnlyAfterSuccess(profilesHash: Option<int>, propertiesHash: Option<int>, record: Option<seq<string>>, generatedEmpty: bool, inp: Inputs)
    requires WellOrdered(inp)
    ensures var out := RunSpec(profilesHash, propertiesHash, record, generatedEmpty, inp);
            && (out.record != record ==>
                  out.decision == Regenerate && out.error.None? &&
                  out.record == Some(HashRecord(profilesHash.value, propertiesHash.value)))
            && (out.decision == Regenerate && out.error.None? ==>
                  out.record == Some(HashRecord(profilesHash.value, propertiesHash.value)))
            && (out.error.Some? ==> out.written == [])
            && (out.decision != Regenerate ==> out.written == [] && out.record == record)
  {
    var out := RunSpec(profilesHash, propertiesHash, record, generatedEmpty, inp);
    if out.decision == Regenerate && out.error.Some? {
      GenerateErrorWritesNothing(inp.props, inp.doc, inp.keyOrder, inp.entryOrder, inp.lib);
    }
  }

  /** Round trip of the record: right after a successful regeneration, a rerun with
      the same files and a non-empty generated folder regenerates nothing and leaves
      the record as it is. */
  lemma RerunIsUpToDate(profilesHash: int, propertiesHash: int, record: Option<seq<string>>, generatedEmpty: bool, inp: Inputs)
    requires WellOrdered(inp)
    requires RunSpec(Some(profilesHash), Some(propertiesHash), record, generatedEmpty, inp).decision == Regenerate
    requires RunSpec(Some(profilesHash), Some(propertiesHash), record, generatedEmpty, inp).error.None?
    ensures var after := RunSpec(Some(profilesHash), Some(propertiesHash), record, generatedEmpty, inp).record;
            RunSpec(Some(profilesHash), Some(propertiesHash), after, false, inp) == RunResult(UpToDate, [], after, None)
  {
  }

  /** A successful regeneration of a document with at least one path leaves the
      generated folder non-empty, so the rerun above meets its premise. */
  lemma RegenerationFillsFolder(profilesHash: int, propertiesHash: int, record: Option<seq<string>>, generatedEmpty: bool, inp: Inputs)
    requires WellOrdered(inp)
    requires RunSpec(Some(profilesHash), Some(propertiesHash), record, generatedEmpty, inp).decision == Regenerate
    requires RunSpec(Some(profilesHash), Some(propertiesHash), record, generatedEmpty, inp).error.None?
    ensures inp.doc.JObject?
    ensures |RunSpec(Some(profilesHash), Some(propertiesHash), record, generatedEmpty, inp).written| == 2 * |inp.doc.fields|
  {
    GenerateFileCount(inp.props, inp.doc, inp.keyOrder, inp.entryOrder, inp.lib);
  }

  /** Change sensitivity: once a run has recorded a pair of hashes, a later run whose
      files hash differently regenerates. */
  lemma ChangeIsDetected(old1: int, old2: int, new1: int, new2: int, generatedEmpty: bool)
    requires old1 != new1 || old2 != new2
    ensures Decide(Some(new1), Some(new2), Some(HashRecord(old1, old2)), generatedEmpty) == Regenerate
  {
    if old1 != new1 {
      if IntToString(old1) == IntToString(new1) {
        IntToStringInjective(old1, new1);
      }
    } else if IntToString(old2) == IntToString(new2) {
      IntToStringInjective(old2, new2);
    }
  }

  /** A short record is no trigger of its own: an empty one, or a one-line record
      whose line matches, ends the run with an index error; a one-line record whose
      line differs regenerates because line 0 is compared first. */
  lemma ShortRecord(profilesHash: int, propertiesHash: int, line: string, generatedEmpty: bool)
    ensures Decide(Some(profilesHash), Some(propertiesHash), Some([]), generatedEmpty) == RecordTooShort(0)
    ensures Decide(Some(profilesHash), Some(propertiesHash), Some([line]), generatedEmpty) ==
              if line == IntToString(profilesHash) then RecordTooShort(1) else Regenerate
  {
  }
}

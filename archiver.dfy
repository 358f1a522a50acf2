/**
  The report pipeline (XUnitArchiver): find the xUnit.net reports that the
  pattern matches under the workspace root, create the output directory and
  transform every report into it, in scanner order, stopping at the first
  report the transformer rejects.

  The directory scan is a given function from pattern to matched names, and
  the XSLT transformer is a given function from report name to outcome. What
  the callable does to the outside world (listener lines, the directory it
  creates, each transformer call) is recorded, in order, in `effects`.
 */
module Archiver {
  import opened Jenkins

  /** How one call of the transformer ends: normally, or with one of its three checked exceptions. */
  datatype TransformOutcome = Transformed | TransformerError | SaxError | ParserConfigError

  datatype Effect =
    | FatalError(message: string)               // listener.fatalError
    | LogLine(message: string)                  // listener.getLogger().println
    | MakeDirs(path: string)                    // File.mkdirs
    | Transform(input: string, outputDir: string) // transformer.transform(stream of input, outputDir)

  const NoReportsFatal := "No XUnit test report files were found. Configuration error?"
  const NoReportsLog := "No XUnit test report files were found."
  const CouldNotTransform := "Could not transform the XUnit report. Please report this issue to the plugin author"
  const CouldNotInitParser := "Could not initialize the XML parser. Please report this issue to the plugin author"

  /** What `findXUnitReports` tells the listener when the pattern matched nothing. */
  function NoReportsEffect(failIfNoResults: bool): (e: Effect)
    ensures e.FatalError? <==> failIfNoResults
    ensures e.LogLine? <==> !failIfNoResults
    ensures e.message == if failIfNoResults then NoReportsFatal else NoReportsLog
  {
    if failIfNoResults then FatalError(NoReportsFatal) else LogLine(NoReportsLog)
  }

  /** The IOException that `call` throws when the transformer fails with `o`. */
  function WrapFailure(o: TransformOutcome): (e: Exception)
    requires o != Transformed
    ensures e.IOException?
    ensures e.message == CouldNotInitParser <==> o == ParserConfigError
    ensures e.message == CouldNotTransform <==> o == TransformerError || o == SaxError
    ensures e.cause == CauseName(o)
  {
    match o
    case TransformerError => IOException(CouldNotTransform, CauseName(o))
    case SaxError => IOException(CouldNotTransform, CauseName(o))
    case ParserConfigError => IOException(CouldNotInitParser, CauseName(o))
  }

  function CauseName(o: TransformOutcome): string
  {
    match o
    case Transformed => ""
    case TransformerError => "TransformerException"
    case SaxError => "SAXException"
    case ParserConfigError => "ParserConfigurationException"
  }

  /**
    The index of the first report the transformer rejects, or the number of
    reports when it accepts them all.
   */
  function FirstFailure(files: seq<string>, transform: string -> TransformOutcome): (k: nat)
    ensures k <= |files|
    ensures forall j :: 0 <= j < k ==> transform(files[j]) == Transformed
    ensures k < |files| ==> transform(files[k]) != Transformed
  {
    if files == [] then 0
    else if transform(files[0]) != Transformed then 0
    else 1 + FirstFailure(files[1..], transform)
  }

  /** The reports among `files` that the loop opens: all of them, or up to and including the first rejected one. */
  function Attempted(files: seq<string>, transform: string -> TransformOutcome): seq<string>
  {
    var k := FirstFailure(files, transform);
    if k < |files| then files[..k + 1] else files
  }

  /** The transformer calls for `files`, in order, each writing into `outputDir`. */
  function Transforms(root: string, files: seq<string>, outputDir: string): (t: seq<Effect>)
    ensures |t| == |files|
  {
    if files == [] then []
    else [Transform(Child(root, files[0]), outputDir)] + Transforms(root, files[1..], outputDir)
  }

  lemma {:induction false} TransformsAt(root: string, files: seq<string>, outputDir: string)
    ensures forall i :: 0 <= i < |files| ==>
      Transforms(root, files, outputDir)[i] == Transform(Child(root, files[i]), outputDir)
  {
    if files != [] {
      TransformsAt(root, files[1..], outputDir);
      forall i | 0 < i < |files|
        ensures Transforms(root, files, outputDir)[i] == Transform(Child(root, files[i]), outputDir)
      {
        assert files[1..][i - 1] == files[i];
      }
    }
  }

  /** Every transformer call writes into the one output directory. */
  lemma {:induction false} TransformsTargetOutputDir(root: string, files: seq<string>, outputDir: string)
    ensures forall e :: e in Transforms(root, files, outputDir) ==> e.Transform? && e.outputDir == outputDir
  {
    if files != [] {
      TransformsTargetOutputDir(root, files[1..], outputDir);
    }
  }

  lemma TransformsSnoc(root: string, files: seq<string>, f: string, outputDir: string)
    ensures Transforms(root, files + [f], outputDir) == Transforms(root, files, outputDir) + [Transform(Child(root, f), outputDir)]
  {
    TransformsAt(root, files + [f], outputDir);
    TransformsAt(root, files, outputDir);
    assert (files + [f])[|files|] == f;
    forall i | 0 <= i < |files|
      ensures (files + [f])[i] == files[i]
    {
    }
  }

  /** One more step of the loop: the calls for the first `i + 1` matches extend those for the first `i`. */
  lemma TransformsStep(root: string, files: seq<string>, i: nat, outputDir: string)
    requires i < |files|
    ensures Transforms(root, files[..i + 1], outputDir) ==
      Transforms(root, files[..i], outputDir) + [Transform(Child(root, files[i]), outputDir)]
  {
    assert files[..i + 1] == files[..i] + [files[i]];
    TransformsSnoc(root, files[..i], files[i], outputDir);
  }

  predicate Distinct<T(==)>(s: seq<T>)
  {
    forall i, j :: 0 <= i < j < |s| ==> s[i] != s[j]
  }

  /** The scanner names each report once, so each report is transformed at most once. */
  lemma TransformsAtMostOnce(root: string, files: seq<string>, outputDir: string)
    requires Distinct(files)
    ensures Distinct(Transforms(root, files, outputDir))
  {
    TransformsAt(root, files, outputDir);
    forall i, j | 0 <= i < j < |files|
      ensures Transforms(root, files, outputDir)[i] != Transforms(root, files, outputDir)[j]
    {
      ChildInjective(root, files[i], files[j]);
    }
  }

  /**
    What `call` does to the outside world for the matches `files`: the
    no-report event when there are none, else the creation of `outputDir`
    followed by one transformer call per attempted report.
   */
  function CallEffects(failIfNoResults: bool, root: string, files: seq<string>,
                       transform: string -> TransformOutcome, outputDir: string): seq<Effect>
  {
    if files == [] then [NoReportsEffect(failIfNoResults)]
    else [MakeDirs(outputDir)] + Transforms(root, Attempted(files, transform), outputDir)
  }

  /** The attempted reports are a prefix of the matches; all but a rejected last one were transformed. */
  lemma AttemptedPrefix(files: seq<string>, transform: string -> TransformOutcome)
    ensures var a := Attempted(files, transform);
      && a <= files
      && (|a| == |files| || transform(a[|a| - 1]) != Transformed)
      && forall j :: 0 <= j < |a| - 1 ==> transform(a[j]) == Transformed
  {
  }

  /** The callable that runs on the agent holding the workspace. */
  class XUnitArchiver {
    const root: string
    const junitDirectoryName: string
    const testResultsPattern: string
    const failIfNoResults: bool

    var fileCount: nat
    var effects: seq<Effect>

    constructor (root: string, junitDirectoryName: string, testResultsPattern: string, failIfNoResults: bool)
      ensures this.root == root && this.junitDirectoryName == junitDirectoryName
      ensures this.testResultsPattern == testResultsPattern && this.failIfNoResults == failIfNoResults
      ensures fileCount == 0 && effects == []
    {
      this.root := root;
      this.junitDirectoryName := junitDirectoryName;
      this.testResultsPattern := testResultsPattern;
      this.failIfNoResults := failIfNoResults;
      fileCount := 0;
      effects := [];
    }

    function OutputPath(): string
    {
      Child(root, junitDirectoryName)
    }

    /** `getFileCount`: what `Call` promises about it is stated in `Call`'s postcondition. */
    function GetFileCount(): nat
      reads this
    {
      fileCount
    }

    /** Scans the root with the pattern; an empty match is reported to the listener. */
    method FindXUnitReports(scanner: string -> seq<string>) returns (files: seq<string>)
      modifies this`effects
      ensures files == scanner(testResultsPattern)
      ensures effects == old(effects) + if files == [] then [NoReportsEffect(failIfNoResults)] else []
    {
      files := scanner(testResultsPattern);
      if |files| == 0 {
        if failIfNoResults {
          effects := effects + [FatalError(NoReportsFatal)];
        } else {
          effects := effects + [LogLine(NoReportsLog)];
        }
      }
    }

    /**
      `call`: false exactly when nothing matched; otherwise the output
      directory is created, then the matches are transformed in order until
      one is rejected, which ends the call with that failure's IOException.
     */
    method Call(scanner: string -> seq<string>, transform: string -> TransformOutcome) returns (r: Outcome<bool>)
      modifies this
      ensures var files := scanner(testResultsPattern);
        var k := FirstFailure(files, transform);
        && effects == old(effects) + CallEffects(failIfNoResults, root, files, transform, OutputPath())
        && if files == [] then
          && r == Returned(false)
          && fileCount == old(fileCount)
        else
          && fileCount == old(fileCount) + k
          && r == if k == |files| then Returned(true) else Threw(WrapFailure(transform(files[k])))
    {
      r := Returned(true);
      var files := FindXUnitReports(scanner);
      if |files| > 0 {
        var outputPath := Child(root, junitDirectoryName);
        effects := effects + [MakeDirs(outputPath)];
        ghost var base := effects;
        ghost var k := FirstFailure(files, transform);

        var i := 0;
        while i < |files|
          invariant 0 <= i <= k
          invariant fileCount == old(fileCount) + i
          invariant effects == base + Transforms(root, files[..i], outputPath)
        {
          TransformsStep(root, files, i, outputPath);
          effects := effects + [Transform(Child(root, files[i]), outputPath)];
          var outcome := transform(files[i]);
          if outcome != Transformed {
            assert i == k;
            assert Attempted(files, transform) == files[..i + 1];
            assert effects == old(effects) + CallEffects(failIfNoResults, root, files, transform, outputPath);
            r := Threw(WrapFailure(outcome));
            return;
          }
          fileCount := fileCount + 1;
          i := i + 1;
        }
        assert k == |files| && files[..i] == files;
        assert Attempted(files, transform) == files;
        assert effects == old(effects) + CallEffects(failIfNoResults, root, files, transform, outputPath);
      } else {
        r := Returned(false);
      }
    }
  }
}

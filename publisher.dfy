/**
  The publisher (XUnitPublisher): runs the report pipeline on the workspace,
  aggregates the normalized JUnit reports into the build's cumulative
  TestResult, and derives the build status from the aggregated counts and two
  policy flags.
 */
module Publisher {
  import opened Jenkins
  import Archiver

  const NoTestReports := "No test report files were found or the XUnit input XML file contained no tests."
  const CouldNotReadXsl := "Could not read the XSL XML file."
  const TempDirPrefix := "tempJunitReports"

  /** The pattern, relative to the workspace, of the normalized reports in the temporary directory. */
  function JunitPattern(tempDir: string): string
  {
    tempDir + "/TEST-*.xml"
  }

  /**
    What the status ladder of `recordTestResult` does to the build: the
    status it requests through `setResult` (none, if it leaves the status
    alone) and whether a newly created action is attached.
   */
  datatype Verdict = Verdict(status: Option<Status>, attach: bool)

  function Decide(failIfNoResults: bool, failedTestsFailBuild: bool, c: Counts): (v: Verdict)
    ensures v.status != Some(Success)
    ensures v.attach <==> !(failIfNoResults && NoResults(c))
    ensures v.status == Some(Failure) <==>
      (failIfNoResults && NoResults(c)) || (c.fail > 0 && failedTestsFailBuild)
    ensures v.status == Some(Unstable) <==> c.fail > 0 && !failedTestsFailBuild
    ensures v.status == None <==> c.fail == 0 && !(failIfNoResults && NoResults(c))
  {
    if failIfNoResults && NoResults(c) then
      Verdict(Some(Failure), false)
    else if c.fail > 0 then
      Verdict(Some(if failedTestsFailBuild then Failure else Unstable), true)
    else
      Verdict(None, true)
  }

  /** The build status once a verdict has been applied: the ladder can only make it worse. */
  function StatusAfter(current: Status, v: Verdict): (s: Status)
    ensures Rank(s) >= Rank(current)
    ensures v.status == None ==> s == current
    ensures v.status.Some? ==> Rank(s) >= Rank(v.status.value)
    ensures s != current ==> v.status == Some(s)
  {
    match v.status
    case None => current
    case Some(t) => Worse(current, t)
  }

  /** The catch blocks of `perform`: an AbortException passes unchanged, any other IOException becomes one. */
  function HandleException(e: Exception): (a: Exception)
    ensures a.AbortException?
    ensures e.AbortException? ==> a == e
    ensures e.IOException? ==> a == AbortException(CouldNotReadXsl)
  {
    match e
    case AbortException(_) => e
    case IOException(_, _) => AbortException(CouldNotReadXsl)
  }

  /** Whatever the transformer rejected, `perform` aborts with the one XSL message. */
  lemma TransformFailureAbortsPerform(o: Archiver.TransformOutcome)
    requires o != Archiver.Transformed
    ensures HandleException(Archiver.WrapFailure(o)) == AbortException(CouldNotReadXsl)
  {
  }

  /**
    The counts of the result `getTestResult` returns when it does return:
    empty for no files, else freshly parsed or merged into the prior counts.
   */
  function Collected(files: seq<string>, prior: Option<Counts>, buildTime: int, parser: JUnitParser): Counts
  {
    if files == [] then Counts(0, 0, 0)
    else match prior
      case None => parser.create(buildTime, files)
      case Some(c) => parser.merge(c, buildTime, files)
  }

  /** The objects of a build that recording may change: the build, its action and the action's result. */
  function Footprint(build: Run): set<object>
    reads build, build.action
  {
    if build.action == null then {build} else {build, build.action as TestResultAction, build.action.result}
  }

  /** The build state the publisher reads and writes. */
  datatype Snapshot = Snapshot(status: Status, action: TestResultAction?, result: TestResult?, counts: Option<Counts>)

  function Snap(build: Run): Snapshot
    reads Footprint(build)
  {
    if build.action == null then Snapshot(build.status, null, null, None)
    else Snapshot(build.status, build.action, build.action.result, Some(build.action.result.counts))
  }

  /**
    The state `recordTestResult` leaves when it returns, relative to the
    state `before` it started from and the normalized report files it
    matched.
   */
  predicate Recorded(build: Run, before: Snapshot, failIfNoResults: bool, failedTestsFailBuild: bool,
                     files: seq<string>, parser: JUnitParser)
    reads Footprint(build)
  {
    var c := Collected(files, before.counts, build.timestamp, parser);
    var v := Decide(failIfNoResults, failedTestsFailBuild, c);
    && build.status == StatusAfter(before.status, v)
    && if before.action != null then
         && build.action == before.action
         && build.action.result.counts == c
         && (files != [] ==> build.action.result == before.result)
       else
         && (build.action != null <==> v.attach)
         && (build.action != null ==> build.action.result.counts == c)
  }

  class XUnitPublisher {
    var testResultsPattern: string
    var failIfNoResults: bool
    var failedTestsFailBuild: bool

    constructor (testResultsPattern: string)
      ensures this.testResultsPattern == testResultsPattern
      ensures failIfNoResults && !failedTestsFailBuild
    {
      this.testResultsPattern := testResultsPattern;
      failIfNoResults := true;
      failedTestsFailBuild := false;
    }

    /**
      `getTestResult`: collects the normalized reports matched by the
      pattern, into `existing` when there is one.
     */
    method GetTestResult(junitFilePattern: string, existing: TestResult?, buildTime: int,
                         scanner: string -> seq<string>, parser: JUnitParser) returns (r: Outcome<TestResult>)
      modifies existing
      ensures var files := scanner(junitFilePattern);
        if files == [] then
          && (existing != null ==> existing.counts == old(existing.counts))
          && if failIfNoResults then r == Threw(AbortException(NoTestReports))
             else r.Returned? && fresh(r.value) && r.value.counts == Counts(0, 0, 0)
        else if existing == null then
          r.Returned? && fresh(r.value) && r.value.counts == parser.create(buildTime, files)
        else
          r.Returned? && r.value == existing && existing.counts == parser.merge(old(existing.counts), buildTime, files)
    {
      var files := scanner(junitFilePattern);
      if |files| == 0 {
        if failIfNoResults {
          return Threw(AbortException(NoTestReports));
        } else {
          var empty := new TestResult.Empty();
          return Returned(empty);
        }
      }
      if existing == null {
        var parsed := new TestResult.FromReports(parser, buildTime, files);
        r := Returned(parsed);
      } else {
        existing.Parse(parser, buildTime, files);
        r := Returned(existing);
      }
    }

    /**
      `recordTestResult`: aggregates into the build's result, attaches a new
      action unless the aggregate is empty under `failIfNoResults`, and
      applies the status ladder. It returns true whenever it does not throw.
     */
    method RecordTestResult(junitFilePattern: string, build: Run,
                            scanner: string -> seq<string>, parser: JUnitParser) returns (r: Outcome<bool>)
      modifies Footprint(build)
      ensures var files := scanner(junitFilePattern);
        if files == [] && failIfNoResults then
          r == Threw(AbortException(NoTestReports)) && Snap(build) == old(Snap(build))
        else
          r == Returned(true) && Recorded(build, old(Snap(build)), failIfNoResults, failedTestsFailBuild, files, parser)
      ensures build.action != null && build.action != old(build.action) ==> fresh(build.action)
      ensures r.Returned? && build.action != null && (old(build.action) == null || scanner(junitFilePattern) == []) ==>
        fresh(build.action.result)
      ensures old(build.action) != null ==> build.action == old(build.action)
      ensures old(build.action) != null && build.action.result != old(build.action.result) ==>
        old(build.action.result).counts == old(build.action.result.counts)
    {
      var existingAction := build.action;
      var existing: TestResult? := null;
      if existingAction != null {
        existing := existingAction.result;
      }
      var got := GetTestResult(junitFilePattern, existing, build.timestamp, scanner, parser);
      if got.Threw? {
        return Threw(got.ex);
      }
      var result := got.value;

      var action: TestResultAction;
      if existingAction == null {
        action := new TestResultAction(result);
      } else {
        action := existingAction;
        action.SetResult(result);
      }

      if failIfNoResults && NoResults(result.counts) {
        build.SetResult(Failure);
        return Returned(true);
      }

      if existingAction == null {
        build.AddAction(action);
      }

      if action.result.counts.fail > 0 {
        if failedTestsFailBuild {
          build.SetResult(Failure);
        } else {
          build.SetResult(Unstable);
        }
      }
      return Returned(true);
    }

    /**
      `perform`: runs the archiver over the workspace into a fresh temporary
      directory, records the normalized reports and deletes the directory;
      with nothing found it fails the build under `failIfNoResults`.
      `expand` is the build's environment-variable expansion, `uuid` the
      random part of the directory name, `before` and `after` the workspace
      scans before and after the archiver writes its output.
     */
    method Perform(build: Run, ws: Workspace, expand: string -> string, uuid: string,
                   before: string -> seq<string>, transform: string -> Archiver.TransformOutcome,
                   after: string -> seq<string>, parser: JUnitParser)
      returns (r: Outcome<()>, ghost trace: seq<Archiver.Effect>)
      modifies Footprint(build), ws
      ensures var xunit := before(expand(testResultsPattern));
        var tempDir := TempDirPrefix + uuid;
        var junit := after(JunitPattern(tempDir));
        if xunit == [] then
          && r == Returned(())
          && Snap(build) == old(Snap(build)).(status := if failIfNoResults then Worse(old(build.status), Failure)
                                                         else old(build.status))
          && ws.deleted == old(ws.deleted)
        else if Archiver.FirstFailure(xunit, transform) < |xunit| then
          r == Threw(AbortException(CouldNotReadXsl)) && Snap(build) == old(Snap(build)) && ws.deleted == old(ws.deleted)
        else if junit == [] && failIfNoResults then
          r == Threw(AbortException(NoTestReports)) && Snap(build) == old(Snap(build)) && ws.deleted == old(ws.deleted)
        else
          && r == Returned(())
          && Recorded(build, old(Snap(build)), failIfNoResults, failedTestsFailBuild, junit, parser)
          && ws.deleted == old(ws.deleted) + [Child(ws.remote, tempDir)]
      ensures build.action != null && build.action != old(build.action) ==> fresh(build.action)
      ensures build.action != null && (old(build.action) == null || build.action.result != old(build.action.result)) ==>
        fresh(build.action.result)
      ensures old(build.action) != null ==> build.action == old(build.action)
      ensures old(build.action) != null && build.action.result != old(build.action.result) ==>
        old(build.action.result).counts == old(build.action.result.counts)
      ensures trace == Archiver.CallEffects(failIfNoResults, ws.remote, before(expand(testResultsPattern)), transform,
                                            Child(ws.remote, TempDirPrefix + uuid))
    {
      var resolvedTestResultsPattern := expand(testResultsPattern);
      var junitTempReportsDirectoryName := TempDirPrefix + uuid;
      var archiver := new Archiver.XUnitArchiver(ws.remote, junitTempReportsDirectoryName,
                                                  resolvedTestResultsPattern, failIfNoResults);
      var found := archiver.Call(before, transform);
      trace := archiver.effects;
      if found.Threw? {
        r := Threw(HandleException(found.ex));
      } else if found.value {
        var recorded := RecordTestResult(JunitPattern(junitTempReportsDirectoryName), build, after, parser);
        if recorded.Threw? {
          r := Threw(HandleException(recorded.ex));
        } else {
          ws.DeleteRecursive(Child(ws.remote, junitTempReportsDirectoryName));
          r := Returned(());
        }
      } else {
        if failIfNoResults {
          build.SetResult(Failure);
        }
        r := Returned(());
      }
    }
  }
}

# xUnit.net publisher for Jenkins: a verified model of its decision logic

This project models the control flow of the Jenkins xUnit.net plugin's two core classes, in Dafny:

- **`XUnitArchiver`** is the report pipeline. It runs on the agent that holds the workspace. It finds the xUnit.net
  reports that the configured pattern matches. With no match it reports a fatal error or a plain log line, depending on
  `failIfNoResults`, and returns false. Otherwise it creates the temporary output directory and transforms every match
  into it, in scanner order, counting successes in `fileCount`. The first report the transformer rejects ends the run
  with an `IOException` whose message depends on the kind of that failure.
- **`XUnitPublisher`** first runs the archiver. If the archiver found reports, it collects the normalized JUnit reports:
  into a fresh `TestResult`, or, when the build already has one, into that very object. It then attaches the result to
  the build through a `TestResultAction` and applies the status ladder. An empty aggregate under `failIfNoResults` makes
  the build FAILURE and the action is not attached. Failed tests make it FAILURE under `failedTestsFailBuild` and
  UNSTABLE otherwise. A clean run leaves the status alone. Last, the publisher deletes the temporary directory. If the
  archiver found nothing, the build becomes FAILURE under `failIfNoResults`. Any `IOException` other than an
  `AbortException` becomes an `AbortException` with one fixed message.

Files:

- `jenkins.dfy` (module `Jenkins`) holds the host types the plugin uses:
  - the build status with Jenkins' worse-of `setResult`;
  - the exceptions;
  - the JUnit `TestResult`, seen through its pass/fail/skip counts;
  - `TestResultAction`, the build (`Run`) and the workspace.
- `archiver.dfy` (module `Archiver`) holds the pipeline. Its class is `XUnitArchiver`. The loop of `Call` is proved
  against the specification function `FirstFailure`. It also records what the callable does to the outside world, in
  order, in an `effects` trace: listener lines, `mkdirs`, and each transformer call.
- `publisher.dfy` (module `Publisher`) holds the publisher:
  - the pure ladder `Decide`;
  - the `perform` catch blocks as `HandleException`;
  - the class `XUnitPublisher` with `GetTestResult`, `RecordTestResult` and `Perform`.

`Call`, `GetTestResult`, `RecordTestResult` and `Perform` state their whole effect on the build and the result object.
`Perform` also states which workspace directories it deletes and, through a ghost trace, what the archiver did
in the workspace: the temporary directory it created and the transformer calls it made. They do so through `Decide`, `FirstFailure`, `Transforms`, `CallEffects` and the predicate `Recorded`. The
properties are proved about those functions.

Inputs the model takes as given, in place of what the plugin computes or asks for:

- directory scans: a function from a pattern to the matched names. `Perform` takes one scan of the workspace from
  before the archiver writes and one from after;
- the XSLT transformer: a function from a report to its outcome;
- the JUnit parser: a `create` function and a `merge` function from report files to counts;
- environment-variable expansion: a function;
- the random part of the temporary directory name: a string;
- the build timestamp: a field of the build.

Behaviours of the source worth noting:

- An empty aggregate under `failIfNoResults` does not abort `recordTestResult`. It sets FAILURE, returns true and only
  skips attaching a new action.
- `call` returns true when every matched report was transformed. It does not look at whether the output directory
  got any files.
- `perform` turns every archiver failure into an `AbortException` with the single message "Could not read the XSL
  XML file.". The thrown exception no longer tells which kind of transformer failure occurred. In the source only the
  log lines of the catch block (XUnitPublisher.java:250-251) still carry the archiver's message, and logging is not
  part of this model.
- On both abort paths of `perform` (a rejected report, and an empty normalized scan under `failIfNoResults`) the
  temporary directory has already been created and is not deleted. It stays in the workspace, together with the
  outputs of the reports transformed before the abort, because the deletion at XUnitPublisher.java:237 is skipped.

One behaviour of the source, modelled as written: suppose the build already carries a result and
`failIfNoResults` is off. If a later run's normalized scan is empty, `getTestResult` returns a fresh empty
`TestResult`, and `recordTestResult` then installs it in the existing action. The earlier results are dropped. The
postconditions of `RecordTestResult` state this: the kept action holds a fresh result with zero counts.

## Model

| member | source | states |
|---|---|---|
| `Publisher.XUnitPublisher.constructor` | src/main/java/io/jenkins/plugins/xunitnet/XUnitPublisher.java:56-70 | a new publisher keeps its pattern, has `failIfNoResults` true and `failedTestsFailBuild` false |
| `Publisher.Decide` | src/main/java/io/jenkins/plugins/xunitnet/XUnitPublisher.java:144-163 | the ladder never requests SUCCESS. It requests FAILURE exactly when the aggregate is empty under `failIfNoResults` or tests failed under `failedTestsFailBuild`. It requests UNSTABLE exactly when tests failed without that flag, and nothing exactly when no test failed and the empty-aggregate rule does not fire. A new action is attached exactly when that rule does not fire |
| `Publisher.StatusAfter` | src/main/java/io/jenkins/plugins/xunitnet/XUnitPublisher.java:149-162 | applying a verdict never improves the build status. The status changes only to the requested one and is at least as bad as it |
| `Publisher.XUnitPublisher.GetTestResult` | src/main/java/io/jenkins/plugins/xunitnet/XUnitPublisher.java:179-212 | an empty scan under `failIfNoResults` throws the fixed AbortException and otherwise returns a fresh empty result. A non-empty scan with no previous result returns a fresh parsed result, and with a previous result returns that very object with the files merged into it. An earlier result is untouched when the scan is empty |
| `Publisher.XUnitPublisher.RecordTestResult` | src/main/java/io/jenkins/plugins/xunitnet/XUnitPublisher.java:123-167 | an abort from the collection leaves the build unchanged. Otherwise it returns true, and the build's status and action follow `Decide` on the collected counts. An existing action is kept and holds the collected result, the same object when files matched. A result it replaces keeps its old counts. A new action and its result are fresh, and the action is attached only when the verdict says so |
| `Publisher.HandleException` | src/main/java/io/jenkins/plugins/xunitnet/XUnitPublisher.java:245-253 | an AbortException is rethrown unchanged, and any other IOException becomes an AbortException with the fixed XSL message |
| `Publisher.TransformFailureAbortsPerform` | src/main/java/io/jenkins/plugins/xunitnet/XUnitPublisher.java:249-252 | every transformer failure that the archiver wraps reaches the caller of `perform` as that one AbortException |
| `Publisher.XUnitPublisher.Perform` | src/main/java/io/jenkins/plugins/xunitnet/XUnitPublisher.java:215-254 | no matched reports: the build becomes FAILURE exactly under `failIfNoResults`, nothing else changes and nothing is deleted. A rejected report: the XSL AbortException, and the build is unchanged, and the temporary directory, created before the transformer calls, is left in place. An empty normalized scan under `failIfNoResults`: the collection's AbortException, the build unchanged, and again the temporary directory is created and not deleted. Otherwise the results are recorded as `RecordTestResult` states, with the scan of `<tempDir>/TEST-*.xml`, and then exactly the temporary directory is deleted. The ghost trace gives what the archiver did: the no-report event when nothing matched, else the creation of `<workspace>/<tempDir>` followed by one transformer call per attempted report. An existing action is kept. A newly attached action, and a result that replaced the old one, are fresh objects, and a replaced result keeps its old counts |
| `Jenkins.TestResult.Parse` | src/main/java/io/jenkins/plugins/xunitnet/XUnitPublisher.java:206 | the merge changes the counts of the existing result object itself, as the parser determines |
| `Jenkins.Run.AddAction` | src/main/java/io/jenkins/plugins/xunitnet/XUnitPublisher.java:153-155 | attaching sets the build's action when it has none and leaves the status alone |
| `Jenkins.Run.SetResult` | src/main/java/io/jenkins/plugins/xunitnet/XUnitPublisher.java:149 | (assumption about Jenkins) the build keeps the worse of its current and the requested status, and its action is unchanged. Calls also at lines 159, 161 and 242 |
| `Jenkins.TestResult.Empty` | src/main/java/io/jenkins/plugins/xunitnet/XUnitPublisher.java:200 | a new result with zero pass, fail and skip counts |
| `Jenkins.TestResult.FromReports` | src/main/java/io/jenkins/plugins/xunitnet/XUnitPublisher.java:204 | a new result whose counts are the parser's reading of the matched files as of the build time |
| `Jenkins.TestResultAction.constructor` | src/main/java/io/jenkins/plugins/xunitnet/XUnitPublisher.java:138 | a new action holds the given result |
| `Jenkins.TestResultAction.SetResult` | src/main/java/io/jenkins/plugins/xunitnet/XUnitPublisher.java:141 | the existing action now holds the given result |
| `Jenkins.Workspace.DeleteRecursive` | src/main/java/io/jenkins/plugins/xunitnet/XUnitPublisher.java:237 | the deletion of exactly the given path is appended to the workspace's deletions |
| `Jenkins.ChildInjective` | src/main/java/io/jenkins/plugins/xunitnet/XUnitArchiver.java:58 | `new File(root, name)` paths of one root coincide only when the names do. This holds for the scanner's normalised relative names; `java.io.File` path normalisation is not modelled |
| `Jenkins.Worse` | src/main/java/io/jenkins/plugins/xunitnet/XUnitPublisher.java:149 | (assumption about `Run.setResult`) the status kept is one of the two, and at least as bad as both |
| `Archiver.XUnitArchiver.constructor` | src/main/java/io/jenkins/plugins/xunitnet/XUnitArchiver.java:33-46 | the callable keeps its root, directory name, pattern and flag, and starts with a zero count and no effects |
| `Archiver.XUnitArchiver.FindXUnitReports` | src/main/java/io/jenkins/plugins/xunitnet/XUnitArchiver.java:89-103 | returns the scanner's matches for the pattern. With no match it emits exactly one listener event, and with a match it emits none |
| `Archiver.NoReportsEffect` | src/main/java/io/jenkins/plugins/xunitnet/XUnitArchiver.java:94-100 | with no match the listener gets a fatal error exactly when `failIfNoResults` holds and a plain log line exactly when it does not, with the respective messages |
| `Archiver.XUnitArchiver.Call` | src/main/java/io/jenkins/plugins/xunitnet/XUnitArchiver.java:50-81 | returns false exactly when nothing matched, with only the no-report event emitted and the count that `GetFileCount` (`getFileCount`) reads unchanged. Otherwise it creates the output directory first. It then calls the transformer on the matches in order, up to and including the first rejected one. The count grows by the number transformed before that rejection, or by all matches. It returns true when none was rejected and otherwise throws the rejection's IOException |
| `Archiver.FirstFailure` | src/main/java/io/jenkins/plugins/xunitnet/XUnitArchiver.java:57-71 | the index of the first rejected report: every earlier report was transformed, and the report at that index, if any, was rejected |
| `Archiver.WrapFailure` | src/main/java/io/jenkins/plugins/xunitnet/XUnitArchiver.java:61-69 | a parser-configuration failure maps to the "Could not initialize the XML parser" IOException. Transformer and SAX failures both map to the "Could not transform the XUnit report" IOException. The cause names the wrapped exception class |
| `Archiver.AttemptedPrefix` | src/main/java/io/jenkins/plugins/xunitnet/XUnitArchiver.java:57-70 | the reports the loop opens are a prefix of the matches. All but the last were transformed, and the last was rejected unless all matches were opened |
| `Archiver.TransformsAt` | src/main/java/io/jenkins/plugins/xunitnet/XUnitArchiver.java:57-59 | the i-th transformer call reads the i-th match under the root: scanner order, one call per match |
| `Archiver.TransformsTargetOutputDir` | src/main/java/io/jenkins/plugins/xunitnet/XUnitArchiver.java:54-59 | every transformer call writes into the one output directory |
| `Archiver.TransformsAtMostOnce` | src/main/java/io/jenkins/plugins/xunitnet/XUnitArchiver.java:57-59 | when the scanner names each file once, no report is transformed twice |

## Left out

- The XSLT transformer and its protection against external entities are not part of this model. A transformer call is
  an abstract outcome per report: success or one of its three checked exceptions. So the model says nothing about the
  files a call writes, nor about an XXE input being rejected.
- The JUnit result tree and the parse/merge semantics belong to the junit plugin. The model keeps only the counts, as
  given functions. No count additivity is claimed for a merge.
- Ant directory scanning (`Util.createFileSet`, `DirectoryScanner`) is a given function from pattern to matched
  names. Distinct names are assumed only where `TransformsAtMostOnce` says so.
- Remote execution (`MasterToSlaveCallable`, `FilePath.act`) and serialization are left out: the archiver is created
  and called in place. `mkdirs` and `deleteRecursive` are recorded as effects. An IOException
  thrown by `deleteRecursive` (after the results are recorded) or by `run.getEnvironment` is not modelled; in the
  source either one would become the XSL `AbortException`. Opening a report that cannot be read
  would throw an unwrapped IOException, and that case is not modelled. `InterruptedException` is not modelled either.
- `new TestResult(...)` and `parse` (XUnitPublisher.java:204, 206) are taken never to throw, although the callable is
  declared `throws IOException` (XUnitPublisher.java:189). A parse error there would become the XSL `AbortException`.
- `getTestResult`'s callable also runs through `FilePath.act` (XUnitPublisher.java:186). "That very object" in the
  `GetTestResult` contract holds only when the callable runs in-process; on a remote agent the object would be
  serialized and a copy returned.
- The `synchronized (build)` block: execution is taken as sequential.
- `UUID.randomUUID`, environment-variable expansion and the build timestamp are inputs.
- Jenkins.Run.SetResult: keeping the worse of the two statuses is an assumption about Jenkins. The source does not
  show it.
- Logging is left out: the publisher's logger and listener lines, and the listener passed to `TestResultAction`. The
  archiver's two no-report listener events are modelled.
- Plugin glue is left out: `DescriptorImpl`, `getProjectAction`, `getRequiredMonitorService`, and the
  `@DataBoundSetter` accessors and getters. The policy fields are plain fields that a client may assign.
- Archiver.XUnitArchiver.Call: `fileCount` is a Java `int`, but the model counts with an unbounded `nat`. Wrap-around
  would need 2^31 or more reports in one call.

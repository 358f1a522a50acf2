/**
  The parts of the Jenkins host that the xUnit.net publisher talks to: the
  build status (hudson.model.Result), the exceptions it throws and catches,
  the JUnit result object and the action that attaches it to a build, the
  build itself and the workspace. Only the behaviour the publisher relies on
  is modelled; the JUnit parser is an abstract pair of functions.
 */
module Jenkins {

  datatype Option<T> = None | Some(value: T)

  /** Build status, ordered from best to worst. */
  datatype Status = Success | Unstable | Failure

  function Rank(s: Status): nat
  {
    match s
    case Success => 0
    case Unstable => 1
    case Failure => 2
  }

  /** The worse of two statuses: what a build holds after `setResult(b)` when it held `a`. */
  function Worse(a: Status, b: Status): (w: Status)
    ensures w == a || w == b
    ensures Rank(w) >= Rank(a) && Rank(w) >= Rank(b)
  {
    if Rank(b) > Rank(a) then b else a
  }

  /**
    The exceptions that cross the core's boundary. `AbortException` is a
    subclass of `IOException` in Jenkins; the publisher's catch blocks
    tell them apart. `cause` names the wrapped exception class, if any.
   */
  datatype Exception =
    | AbortException(message: string)
    | IOException(message: string, cause: string)

  /** A Java call either returns a value or throws. */
  datatype Outcome<T> = Returned(value: T) | Threw(ex: Exception)

  /** Pass, fail and skip counts of an aggregated JUnit result. */
  datatype Counts = Counts(pass: nat, fail: nat, skip: nat)

  /** No test of any kind: the "none of the test reports contained any result" case. */
  predicate NoResults(c: Counts)
  {
    c.pass == 0 && c.fail == 0 && c.skip == 0
  }

  /**
    The external JUnit parser: `create` makes a new result from the matched
    report files (as of a build time), `merge` parses them into an existing
    result. Neither is specified further.
   */
  datatype JUnitParser = JUnitParser(
    create: (int, seq<string>) -> Counts,
    merge: (Counts, int, seq<string>) -> Counts)

  /** hudson.tasks.junit.TestResult, seen through its counts. */
  class TestResult {
    var counts: Counts

    /** `new TestResult()`: a result with no tests. */
    constructor Empty()
      ensures counts == Counts(0, 0, 0)
    {
      counts := Counts(0, 0, 0);
    }

    /** `new TestResult(buildTime, ds, ...)`: a result parsed from the matched files. */
    constructor FromReports(parser: JUnitParser, buildTime: int, files: seq<string>)
      ensures counts == parser.create(buildTime, files)
    {
      counts := parser.create(buildTime, files);
    }

    /** `parse(buildTime, ds, null)`: merges the matched files into this very object. */
    method Parse(parser: JUnitParser, buildTime: int, files: seq<string>)
      modifies this
      ensures counts == parser.merge(old(counts), buildTime, files)
    {
      counts := parser.merge(counts, buildTime, files);
    }
  }

  /** hudson.tasks.junit.TestResultAction: attaches a result to a build. */
  class TestResultAction {
    var result: TestResult

    constructor (r: TestResult)
      ensures result == r
    {
      result := r;
    }

    method SetResult(r: TestResult)
      modifies this
      ensures result == r
    {
      result := r;
    }
  }

  /**
    hudson.model.Run, reduced to its timestamp, its status and the
    TestResultAction that `getAction(TestResultAction.class)` finds.
   */
  class Run {
    const timestamp: int
    var status: Status
    var action: TestResultAction?

    constructor (timestamp: int)
      ensures this.timestamp == timestamp
      ensures status == Success && action == null
    {
      this.timestamp := timestamp;
      status := Success;
      action := null;
    }

    /** Jenkins keeps the worse of the current and the requested status. */
    method SetResult(s: Status)
      modifies this
      ensures status == Worse(old(status), s)
      ensures action == old(action)
    {
      status := Worse(status, s);
    }

    /** `addAction`; `getAction` keeps returning the first action of the class. */
    method AddAction(a: TestResultAction)
      modifies this
      ensures action == if old(action) == null then a else old(action)
      ensures status == old(status)
    {
      if action == null {
        action := a;
      }
    }
  }

  /** The build's workspace (a FilePath): its path and the directories deleted from it. */
  class Workspace {
    const remote: string
    var deleted: seq<string>

    constructor (remote: string)
      ensures this.remote == remote && deleted == []
    {
      this.remote := remote;
      deleted := [];
    }

    method DeleteRecursive(path: string)
      modifies this
      ensures deleted == old(deleted) + [path]
    {
      deleted := deleted + [path];
    }
  }

  /** `new File(parent, name)` as a path string. */
  function Child(parent: string, name: string): string
  {
    parent + "/" + name
  }

  /** Two children of one parent coincide only when their names do. */
  lemma ChildInjective(parent: string, a: string, b: string)
    ensures Child(parent, a) == Child(parent, b) ==> a == b
  {
    var p := parent + "/";
    assert Child(parent, a) == p + a && Child(parent, b) == p + b;
    assert (p + a)[|p|..] == a;
    assert (p + b)[|p|..] == b;
  }
}

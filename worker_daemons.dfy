/**
 * The worker daemon side as the adapter, the task and the runnable builder see
 * it: the options a daemon is asked for, the result envelope it sends back, the
 * daemon itself and the factory that hands daemons out.
 *
 * The daemon process is not modelled: a daemon answers every request through an
 * oracle fixed when it is created, and records the requests it received, in
 * order. The factory records every `getDaemon` call; the number of calls is the
 * length of that record.
 */
module WorkerDaemons {
  import opened Jvm

  /** The package every daemon shares with the build, added last. */
  const GradleApiPackage: string := "org.gradle.api"

  /** `DaemonForkOptions`: the environment a daemon must satisfy. */
  datatype DaemonForkOptions = DaemonForkOptions(
    minHeapSize: Option<string>,
    maxHeapSize: Option<string>,
    jvmArgs: seq<string>,
    classpath: seq<File>,
    sharedPackages: seq<string>)

  /**
   * The daemon classpath: the caller's entries, then the location of `Action`,
   * then that of the behaviour class, then that of the subject class, the last
   * only when the subject class has a (non-bootstrap) class loader.
   */
  function DaemonClasspath(jvm: ClassModel, actionClass: ClassName, subjectClass: ClassName, entries: seq<File>): (cp: seq<File>)
    ensures |cp| == |entries| + (if jvm.hasClassLoader(subjectClass) then 3 else 2)
    ensures cp[..|entries|] == entries
    ensures cp[|entries|] == jvm.classpathForClass(ActionInterface)
    ensures cp[|entries| + 1] == jvm.classpathForClass(actionClass)
    ensures jvm.hasClassLoader(subjectClass) ==> cp[|entries| + 2] == jvm.classpathForClass(subjectClass)
  {
    entries
    + [jvm.classpathForClass(ActionInterface), jvm.classpathForClass(actionClass)]
    + (if jvm.hasClassLoader(subjectClass) then [jvm.classpathForClass(subjectClass)] else [])
  }

  /**
   * The shared packages: the caller's packages, then the behaviour class's
   * package if it has one, then the subject class's package if it has one, then
   * `org.gradle.api`.
   */
  function DaemonSharedPackages(jvm: ClassModel, actionClass: ClassName, subjectClass: ClassName, packages: seq<string>): (sp: seq<string>)
    ensures |sp| == |packages| + |ToSeq(jvm.packageName(actionClass))| + |ToSeq(jvm.packageName(subjectClass))| + 1
    ensures sp[..|packages|] == packages
    ensures sp[|sp| - 1] == GradleApiPackage
    ensures jvm.packageName(actionClass).Some? ==> sp[|packages|] == jvm.packageName(actionClass).value
    ensures jvm.packageName(subjectClass).Some? ==> sp[|sp| - 2] == jvm.packageName(subjectClass).value
  {
    packages + ToSeq(jvm.packageName(actionClass)) + ToSeq(jvm.packageName(subjectClass)) + [GradleApiPackage]
  }

  /**
   * Nothing is de-duplicated: the multiset of the shared packages is exactly the
   * sum of its parts, so a package named twice is shared twice.
   */
  lemma SharedPackagesKeepDuplicates(jvm: ClassModel, actionClass: ClassName, subjectClass: ClassName, packages: seq<string>)
    ensures multiset(DaemonSharedPackages(jvm, actionClass, subjectClass, packages))
         == multiset(packages) + multiset(ToSeq(jvm.packageName(actionClass)))
            + multiset(ToSeq(jvm.packageName(subjectClass))) + multiset{GradleApiPackage}
  {
    var a := ToSeq(jvm.packageName(actionClass));
    var s := ToSeq(jvm.packageName(subjectClass));
    assert DaemonSharedPackages(jvm, actionClass, subjectClass, packages) == packages + a + s + [GradleApiPackage];
    assert multiset(packages + a + s + [GradleApiPackage])
        == multiset(packages) + multiset(a) + multiset(s) + multiset{GradleApiPackage};
  }

  /**
   * The options a daemon is asked for on behalf of `actionClass` and
   * `subjectClass`: heap bounds and JVM arguments forwarded unchanged from the
   * caller's fork options, a null classpath or package list read as empty.
   * Both `DefaultWorkerDaemonAdapter.toDaemonOptions` and
   * `WorkerDaemonTask.getDaemonOptions` build this value.
   */
  function DaemonOptionsFor(jvm: ClassModel, actionClass: ClassName, subjectClass: ClassName,
                            forkOptions: JavaForkOptions, classpath: Option<seq<File>>,
                            sharedPackages: Option<seq<string>>): (o: DaemonForkOptions)
    ensures o.minHeapSize == forkOptions.minHeapSize
    ensures o.maxHeapSize == forkOptions.maxHeapSize
    ensures o.jvmArgs == forkOptions.allJvmArgs
    ensures |o.classpath| == |OrEmpty(classpath)| + 2 || |o.classpath| == |OrEmpty(classpath)| + 3
    ensures o.classpath[..|OrEmpty(classpath)|] == OrEmpty(classpath)
    ensures |OrEmpty(sharedPackages)| < |o.sharedPackages| <= |OrEmpty(sharedPackages)| + 3
    ensures o.sharedPackages[..|OrEmpty(sharedPackages)|] == OrEmpty(sharedPackages)
    ensures o.sharedPackages[|o.sharedPackages| - 1] == GradleApiPackage
  {
    DaemonForkOptions(
      forkOptions.minHeapSize, forkOptions.maxHeapSize, forkOptions.allJvmArgs,
      DaemonClasspath(jvm, actionClass, subjectClass, OrEmpty(classpath)),
      DaemonSharedPackages(jvm, actionClass, subjectClass, OrEmpty(sharedPackages)))
  }

  /**
   * An action class in package `p1`, a subject class in package `p2` and the
   * caller's package `p3` give `p3`, `p1`, `p2`, `org.gradle.api`, in that order.
   */
  lemma SharedPackagesExample(jvm: ClassModel, actionClass: ClassName, subjectClass: ClassName, forkOptions: JavaForkOptions)
    requires jvm.packageName(actionClass) == Some("p1") && jvm.packageName(subjectClass) == Some("p2")
    ensures DaemonOptionsFor(jvm, actionClass, subjectClass, forkOptions, None, Some(["p3"])).sharedPackages
         == ["p3", "p1", "p2", GradleApiPackage]
  {
  }

  /**
   * `WorkerDaemonResult` and its subclass `WrappedDaemonResult`, which also
   * carries the (nullable) value a transformer produced. A result is a success
   * exactly when its exception is null.
   */
  datatype WorkerDaemonResult<+R> =
    | WorkerDaemonResult(didWork: bool, exception: Option<Throwable>)
    | WrappedDaemonResult(result: Option<R>, didWork: bool, exception: Option<Throwable>)
  {
    predicate IsSuccess() {
      exception.None?
    }
  }

  /**
   * A worker daemon, created for one working directory and one set of options.
   * `answer` is what the daemon process sends back for a request; `received`
   * is every request sent to it so far, in order.
   */
  class WorkerDaemon<A, S, E> {
    const workingDir: File
    const options: DaemonForkOptions
    const answer: (A, S) -> E
    var received: seq<(A, S)>

    constructor (workingDir: File, options: DaemonForkOptions, answer: (A, S) -> E)
      ensures this.workingDir == workingDir && this.options == options && this.answer == answer
      ensures received == []
    {
      this.workingDir := workingDir;
      this.options := options;
      this.answer := answer;
      received := [];
    }

    /** `WorkerDaemon.execute`: send one request and wait for its result. */
    method Execute(action: A, spec: S) returns (e: E)
      modifies this
      ensures received == old(received) + [(action, spec)]
      ensures e == answer(action, spec)
    {
      received := received + [(action, spec)];
      e := answer(action, spec);
    }
  }

  /**
   * `WorkerDaemonFactory`: every daemon it hands out answers through `answer`.
   * `requests` records each `getDaemon` call with its arguments.
   */
  class WorkerDaemonFactory<A, S, E> {
    const answer: (A, S) -> E
    var requests: seq<(File, DaemonForkOptions)>

    constructor (answer: (A, S) -> E)
      ensures this.answer == answer && requests == []
    {
      this.answer := answer;
      requests := [];
    }

    /** `getDaemon(workingDir, options)`: one more request, one daemon for it. */
    method GetDaemon(workingDir: File, options: DaemonForkOptions) returns (d: WorkerDaemon<A, S, E>)
      modifies this
      ensures requests == old(requests) + [(workingDir, options)]
      ensures fresh(d) && d.workingDir == workingDir && d.options == options
      ensures d.answer == answer && d.received == []
    {
      requests := requests + [(workingDir, options)];
      d := new WorkerDaemon(workingDir, options, answer);
    }
  }
}

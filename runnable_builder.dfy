/**
 * `WorkerDaemonRunnableBuilder`: builds a `Runnable` that, each time it runs,
 * acquires a worker daemon and has it instantiate and run a `Runnable` class
 * with the configured constructor parameters.
 *
 * The builder's configuration (implementation class, parameters, fork options,
 * classpath, shared packages) lives in its superclass, which is not part of this
 * model: here it is a set of fields, and the superclass's `toDaemonOptions` is a
 * given function.
 */
module RunnableBuilder {
  import opened Jvm
  import opened WorkerDaemons

  /** `ParamSpec`: the work spec carrying the constructor parameters. */
  datatype ParamSpec<+P> = ParamSpec(params: seq<JavaObject<P>>)
  {
    /** `getParams()`: exactly the parameters the spec was built with. */
    function GetParams(): (r: seq<JavaObject<P>>)
      ensures ParamSpec(r) == this
    {
      params
    }
  }

  /**
   * What the worker-side JVM does: `instantiate` is
   * `DirectInstantiator.instantiate(cls, params)`, `run` is `run()` on the
   * instance so built. Each returns or throws.
   */
  datatype RunnableBehaviours<-P> = RunnableBehaviours(
    instantiate: (ClassName, seq<JavaObject<P>>) -> Outcome<()>,
    run: (ClassName, seq<JavaObject<P>>) -> Outcome<()>)

  /** The behaviour run locally with no try/catch: instantiate, then run, any throwable propagating. */
  function InvokeRunnable<P>(b: RunnableBehaviours<P>, cls: ClassName, params: seq<JavaObject<P>>): Outcome<()>
  {
    match b.instantiate(cls, params)
    case Threw(t) => Threw(t)
    case Returned(_) => b.run(cls, params)
  }

  /** `WrappedDaemonRunnable`: the wrapper sent to the daemon, naming the `Runnable` class. */
  datatype WrappedDaemonRunnable = WrappedDaemonRunnable(runnableClass: ClassName)
  {
    /**
     * `execute(spec)` on the worker side: never throws; a failure to
     * instantiate and a failure of `run()` both end in an envelope holding that
     * throwable, success in one with no exception. `didWork` is true on both
     * paths.
     */
    function Execute<P>(b: RunnableBehaviours<P>, spec: ParamSpec<P>): (r: WorkerDaemonResult<()>)
      ensures r.WorkerDaemonResult? && r.didWork
      ensures r.IsSuccess() <==> InvokeRunnable(b, runnableClass, spec.params).Returned?
      ensures !r.IsSuccess() ==> r.exception.value == InvokeRunnable(b, runnableClass, spec.params).cause
    {
      match b.instantiate(runnableClass, spec.GetParams())
      case Threw(t) => WorkerDaemonResult(true, Some(t))
      case Returned(_) =>
        match b.run(runnableClass, spec.GetParams())
        case Threw(t) => WorkerDaemonResult(true, Some(t))
        case Returned(_) => WorkerDaemonResult(true, None)
    }
  }

  /** `CollectionUtils.collect(params, o -> o.getClass())`: the runtime class of each parameter, in order. */
  function ParamTypes<P>(params: seq<JavaObject<P>>): (types: seq<ClassName>)
    ensures |types| == |params|
    ensures forall i :: 0 <= i < |params| ==> types[i] == params[i].cls
  {
    if params == [] then [] else [params[0].cls] + ParamTypes(params[1..])
  }

  /**
   * The anonymous `Runnable` that `build()` returns, by what it captures: the
   * spec, the wrapper and the daemon options, all computed in `build()`.
   */
  datatype DaemonRunnable<+P> = DaemonRunnable(
    spec: ParamSpec<P>, daemonRunnable: WrappedDaemonRunnable, daemonForkOptions: DaemonForkOptions)

  class WorkerDaemonRunnableBuilder<P> {
    const workerDaemonFactory: WorkerDaemonFactory<WrappedDaemonRunnable, ParamSpec<P>, WorkerDaemonResult<()>>
    /** The superclass's `toDaemonOptions(implementationClass, paramTypes, forkOptions, classpath, sharedPackages)`. */
    const toDaemonOptions: (ClassName, seq<ClassName>, JavaForkOptions, Option<seq<File>>, Option<seq<string>>) -> DaemonForkOptions
    var implementationClass: ClassName
    var params: seq<JavaObject<P>>
    var forkOptions: JavaForkOptions
    var classpath: Option<seq<File>>
    var sharedPackages: Option<seq<string>>

    constructor (workerDaemonFactory: WorkerDaemonFactory<WrappedDaemonRunnable, ParamSpec<P>, WorkerDaemonResult<()>>,
                 toDaemonOptions: (ClassName, seq<ClassName>, JavaForkOptions, Option<seq<File>>, Option<seq<string>>) -> DaemonForkOptions,
                 implementationClass: ClassName, params: seq<JavaObject<P>>, forkOptions: JavaForkOptions,
                 classpath: Option<seq<File>>, sharedPackages: Option<seq<string>>)
      ensures this.workerDaemonFactory == workerDaemonFactory && this.toDaemonOptions == toDaemonOptions
      ensures this.implementationClass == implementationClass && this.params == params
      ensures this.forkOptions == forkOptions && this.classpath == classpath && this.sharedPackages == sharedPackages
    {
      this.workerDaemonFactory := workerDaemonFactory;
      this.toDaemonOptions := toDaemonOptions;
      this.implementationClass := implementationClass;
      this.params := params;
      this.forkOptions := forkOptions;
      this.classpath := classpath;
      this.sharedPackages := sharedPackages;
    }

    /**
     * `build()`: the spec holds exactly the configured parameters, the wrapper
     * names the implementation class, and the daemon options are computed once,
     * from the parameters' runtime classes. Being a function, it acquires no
     * daemon.
     */
    function Build(): (r: DaemonRunnable<P>)
      reads this
      ensures r.spec.GetParams() == params
      ensures r.daemonRunnable.runnableClass == implementationClass
      ensures r.daemonForkOptions == toDaemonOptions(implementationClass, ParamTypes(params), forkOptions, classpath, sharedPackages)
    {
      var spec := ParamSpec(params);
      var daemonRunnable := WrappedDaemonRunnable(implementationClass);
      var paramTypes := ParamTypes(params);
      var daemonForkOptions := toDaemonOptions(implementationClass, paramTypes, forkOptions, classpath, sharedPackages);
      DaemonRunnable(spec, daemonRunnable, daemonForkOptions)
    }

    /**
     * `run()` of the built runnable: one daemon request, for the builder's
     * working directory at the time of the run and the precomputed options, and
     * exactly one execution of the wrapper with the precomputed spec. The
     * result is discarded, so `run()` ends normally whether or not the remote
     * runnable failed.
     */
    method Run(r: DaemonRunnable<P>) returns (ghost daemon: WorkerDaemon<WrappedDaemonRunnable, ParamSpec<P>, WorkerDaemonResult<()>>)
      modifies workerDaemonFactory
      ensures workerDaemonFactory.requests == old(workerDaemonFactory.requests) + [(forkOptions.workingDir, r.daemonForkOptions)]
      ensures fresh(daemon) && daemon.options == r.daemonForkOptions
      ensures daemon.received == [(r.daemonRunnable, r.spec)]
    {
      var d := workerDaemonFactory.GetDaemon(forkOptions.workingDir, r.daemonForkOptions);
      var _ := d.Execute(r.daemonRunnable, r.spec);
      daemon := d;
    }
  }

  /** Running the wrapper and reading its envelope reproduces what running the behaviour locally does. */
  lemma RunnableRoundTrip<P>(b: RunnableBehaviours<P>, cls: ClassName, params: seq<JavaObject<P>>)
    ensures var r := WrappedDaemonRunnable(cls).Execute(b, ParamSpec(params));
      (if r.IsSuccess() then Returned(()) else Threw(r.exception.value)) == InvokeRunnable(b, cls, params)
  {
    match InvokeRunnable(b, cls, params)
    case Returned(u) => assert u == ();
    case Threw(_) =>
  }
}

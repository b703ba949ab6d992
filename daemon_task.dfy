/**
 * `WorkerDaemonTask`: a build task that holds fork options, shared packages and
 * an extra classpath, and forwards work to a worker daemon adapter with daemon
 * options derived from those fields.
 *
 * The adapter it forwards to is not part of this model: each forwarding
 * operation yields the adapter call it makes (`AdapterCall`), or says that it
 * makes none.
 */
module DaemonTask {
  import opened Jvm
  import opened WorkerDaemons

  /** The behaviour instance handed to the adapter: an action or a transformer. */
  datatype Behaviour<+B> = ActionInstance(obj: JavaObject<B>) | TransformerInstance(obj: JavaObject<B>)

  /**
   * What the subject argument of the adapter call is. The batch forwards pass
   * the whole subject iterable where the adapter's single-subject overload
   * expects one subject; `WholeBatch` records that argument as it is passed.
   */
  datatype AdapterArgument<+V> = OneSubject(subject: JavaObject<V>) | WholeBatch(subjects: seq<JavaObject<V>>)

  /** One `executeInDaemon(workingDir, options, behaviour, argument)` call on the adapter. */
  datatype AdapterCall<+V, +B> = ExecuteInDaemon(
    workingDir: File, options: DaemonForkOptions, behaviour: Behaviour<B>, argument: AdapterArgument<V>)

  /** What the transformer batch forward returns: a fresh empty list, or what the adapter call returns. */
  datatype TransformReturn<+V, +B> = FreshEmptyList | AdapterResult(call: AdapterCall<V, B>)

  class WorkerDaemonTask<V, B> {
    var forkOptions: JavaForkOptions
    var sharedPackages: Option<seq<string>>
    var classpath: Option<seq<File>>
    /** `getProject().getProjectDir()`. */
    const projectDir: File
    /** What reflection reports in the build's JVM. */
    const jvm: ClassModel

    /** A new task: default fork options, no shared packages, no classpath. */
    constructor (defaultForkOptions: JavaForkOptions, projectDir: File, jvm: ClassModel)
      ensures forkOptions == defaultForkOptions && sharedPackages == None && classpath == None
      ensures this.projectDir == projectDir && this.jvm == jvm
    {
      forkOptions := defaultForkOptions;
      sharedPackages := None;
      classpath := None;
      this.projectDir := projectDir;
      this.jvm := jvm;
    }

    function GetForkOptions(): JavaForkOptions
      reads this
    {
      forkOptions
    }

    function GetSharedPackages(): Option<seq<string>>
      reads this
    {
      sharedPackages
    }

    /** `getClasspath()`, with `getFiles()` of the collection taken as a given sequence. */
    function GetClasspath(): Option<seq<File>>
      reads this
    {
      classpath
    }

    /** `setForkOptions`: the getter then returns the value set; the other fields keep theirs. */
    method SetForkOptions(forkOptions: JavaForkOptions)
      modifies this
      ensures GetForkOptions() == forkOptions
      ensures GetSharedPackages() == old(GetSharedPackages()) && GetClasspath() == old(GetClasspath())
    {
      this.forkOptions := forkOptions;
    }

    /** `setSharedPackages`: the getter then returns the value set; the other fields keep theirs. */
    method SetSharedPackages(sharedPackages: Option<seq<string>>)
      modifies this
      ensures GetSharedPackages() == sharedPackages
      ensures GetForkOptions() == old(GetForkOptions()) && GetClasspath() == old(GetClasspath())
    {
      this.sharedPackages := sharedPackages;
    }

    /** `setClasspath`: the getter then returns the value set; the other fields keep theirs. */
    method SetClasspath(classpath: Option<seq<File>>)
      modifies this
      ensures GetClasspath() == classpath
      ensures GetForkOptions() == old(GetForkOptions()) && GetSharedPackages() == old(GetSharedPackages())
    {
      this.classpath := classpath;
    }

    /**
     * `getDaemonOptions`: the options built entry by entry from the task's
     * fields, the same construction as the adapter's.
     */
    method GetDaemonOptions(actionClass: ClassName, subjectClass: ClassName) returns (options: DaemonForkOptions)
      ensures options == DaemonOptionsFor(jvm, actionClass, subjectClass, forkOptions, classpath, sharedPackages)
    {
      var classpathBuilder: seq<File> := [];
      if classpath.Some? {
        classpathBuilder := classpathBuilder + classpath.value;
      }
      assert classpathBuilder == OrEmpty(classpath);
      classpathBuilder := classpathBuilder + [jvm.classpathForClass(ActionInterface)];
      classpathBuilder := classpathBuilder + [jvm.classpathForClass(actionClass)];
      if jvm.hasClassLoader(subjectClass) {
        classpathBuilder := classpathBuilder + [jvm.classpathForClass(subjectClass)];
      }
      assert classpathBuilder == DaemonClasspath(jvm, actionClass, subjectClass, OrEmpty(classpath));

      var sharedPackagesBuilder: seq<string> := [];
      if sharedPackages.Some? {
        sharedPackagesBuilder := sharedPackagesBuilder + sharedPackages.value;
      }
      assert sharedPackagesBuilder == OrEmpty(sharedPackages);
      if jvm.packageName(actionClass).Some? {
        sharedPackagesBuilder := sharedPackagesBuilder + [jvm.packageName(actionClass).value];
      }
      assert sharedPackagesBuilder == OrEmpty(sharedPackages) + ToSeq(jvm.packageName(actionClass));
      if jvm.packageName(subjectClass).Some? {
        sharedPackagesBuilder := sharedPackagesBuilder + [jvm.packageName(subjectClass).value];
      }
      assert sharedPackagesBuilder == OrEmpty(sharedPackages) + ToSeq(jvm.packageName(actionClass))
                                      + ToSeq(jvm.packageName(subjectClass));
      sharedPackagesBuilder := sharedPackagesBuilder + [GradleApiPackage];
      assert sharedPackagesBuilder == DaemonSharedPackages(jvm, actionClass, subjectClass, OrEmpty(sharedPackages));

      options := DaemonForkOptions(forkOptions.minHeapSize, forkOptions.maxHeapSize, forkOptions.allJvmArgs,
                                   classpathBuilder, sharedPackagesBuilder);
    }

    /** The options `getDaemonOptions` yields for the task's current fields. */
    function DaemonOptions(behaviourClass: ClassName, subjectClass: ClassName): DaemonForkOptions
      reads this
    {
      DaemonOptionsFor(jvm, behaviourClass, subjectClass, forkOptions, classpath, sharedPackages)
    }

    /**
     * `executeAllInDaemon(action, subjects)`: no adapter call for a null or
     * empty batch; otherwise one call, with options from the action's class and
     * the first subject's class, passing the whole batch.
     */
    function ExecuteAllActionsInDaemon(action: JavaObject<B>, subjects: Option<seq<JavaObject<V>>>): (call: Option<AdapterCall<V, B>>)
      reads this
      ensures call.None? <==> OrEmpty(subjects) == []
      ensures call.Some? ==>
        && call.value.workingDir == projectDir
        && call.value.options == DaemonOptions(action.cls, OrEmpty(subjects)[0].cls)
        && call.value.behaviour == ActionInstance(action)
        && call.value.argument == WholeBatch(OrEmpty(subjects))
    {
      var items := OrEmpty(subjects);
      if |items| == 0 then None
      else Some(ExecuteInDaemon(projectDir, DaemonOptions(action.cls, items[0].cls), ActionInstance(action), WholeBatch(items)))
    }

    /** `executeInDaemon(action, subject)`: one adapter call, with options from the action's and the subject's classes. */
    function ExecuteActionInDaemon(action: JavaObject<B>, subject: JavaObject<V>): (call: AdapterCall<V, B>)
      reads this
      ensures call.workingDir == projectDir
      ensures call.options == DaemonOptions(action.cls, subject.cls)
      ensures call.behaviour == ActionInstance(action) && call.argument == OneSubject(subject)
    {
      ExecuteInDaemon(projectDir, DaemonOptions(action.cls, subject.cls), ActionInstance(action), OneSubject(subject))
    }

    /**
     * `executeAllInDaemon(transformer, subjects)`: a fresh empty list for a null
     * or empty batch, with no adapter call; otherwise what one adapter call
     * returns, with options from the transformer's class and the first
     * subject's class, passing the whole batch.
     */
    function ExecuteAllTransformsInDaemon(transformer: JavaObject<B>, subjects: Option<seq<JavaObject<V>>>): (r: TransformReturn<V, B>)
      reads this
      ensures r.FreshEmptyList? <==> OrEmpty(subjects) == []
      ensures r.AdapterResult? ==>
        && r.call.workingDir == projectDir
        && r.call.options == DaemonOptions(transformer.cls, OrEmpty(subjects)[0].cls)
        && r.call.behaviour == TransformerInstance(transformer)
        && r.call.argument == WholeBatch(OrEmpty(subjects))
    {
      var items := OrEmpty(subjects);
      if |items| == 0 then FreshEmptyList
      else AdapterResult(ExecuteInDaemon(projectDir, DaemonOptions(transformer.cls, items[0].cls),
                                         TransformerInstance(transformer), WholeBatch(items)))
    }

    /** `executeInDaemon(transformer, subject)`: what one adapter call returns. */
    function ExecuteTransformInDaemon(transformer: JavaObject<B>, subject: JavaObject<V>): (call: AdapterCall<V, B>)
      reads this
      ensures call.workingDir == projectDir
      ensures call.options == DaemonOptions(transformer.cls, subject.cls)
      ensures call.behaviour == TransformerInstance(transformer) && call.argument == OneSubject(subject)
    {
      ExecuteInDaemon(projectDir, DaemonOptions(transformer.cls, subject.cls), TransformerInstance(transformer), OneSubject(subject))
    }
  }

  /**
   * Only the first subject's class affects the options of a batch call: two
   * non-empty batches whose first subjects share a class get the same options.
   */
  lemma BatchOptionsFromFirstSubjectOnly<V, B>(task: WorkerDaemonTask<V, B>, action: JavaObject<B>,
                                               xs: seq<JavaObject<V>>, ys: seq<JavaObject<V>>)
    requires xs != [] && ys != [] && xs[0].cls == ys[0].cls
    ensures task.ExecuteAllActionsInDaemon(action, Some(xs)).value.options
         == task.ExecuteAllActionsInDaemon(action, Some(ys)).value.options
    ensures task.ExecuteAllTransformsInDaemon(action, Some(xs)).call.options
         == task.ExecuteAllTransformsInDaemon(action, Some(ys)).call.options
  {
  }

  /**
   * A one-subject batch and the single-subject call ask for the same options,
   * but the batch passes the list where the single call passes the subject.
   */
  lemma OneElementBatchVersusSingleCall<V, B>(task: WorkerDaemonTask<V, B>, action: JavaObject<B>, s: JavaObject<V>)
    ensures task.ExecuteAllActionsInDaemon(action, Some([s])).value.options == task.ExecuteActionInDaemon(action, s).options
    ensures task.ExecuteAllActionsInDaemon(action, Some([s])).value.argument == WholeBatch([s])
    ensures task.ExecuteActionInDaemon(action, s).argument == OneSubject(s)
  {
  }
}

/**
 * `DefaultWorkerDaemonAdapter`: runs a batch of subjects through an action or a
 * transformer class in one worker daemon, attempting every subject and
 * reporting all failures together at the end.
 *
 * The wrappers sent to the daemon (`WrappedDaemonAction`,
 * `WrappedDaemonTransformer`) are modelled by what they compute on the worker
 * side from the worker's `Behaviours`; the daemon the adapter talks to answers
 * through an arbitrary oracle, so the batch properties hold whatever the daemon
 * returns.
 */
module DaemonAdapter {
  import opened Jvm
  import opened WorkerDaemons

  const ActionsFailedMessage: string := "Failed to execute all actions."
  const TransformsFailedMessage: string := "Failed to execute all transforms."

  /** `SubjectSpec`: the work spec carrying one subject. */
  datatype SubjectSpec<+V> = SubjectSpec(subject: JavaObject<V>)

  /**
   * What the worker-side JVM does: `newInstance` is `cls.newInstance()`
   * (returns or throws), `execute` and `transform` are the behaviour's
   * `execute`/`transform` on a fresh instance of `cls`. A transformer may return
   * null, hence the option.
   */
  datatype Behaviours<-V, R> = Behaviours(
    newInstance: ClassName -> Outcome<()>,
    execute: (ClassName, JavaObject<V>) -> Outcome<()>,
    transform: (ClassName, JavaObject<V>) -> Outcome<Option<R>>)

  /**
   * Running the behaviour locally with no try/catch: instantiate, then run, any
   * throwable propagating. An action produces no value (`None`).
   */
  function Invoke<V, R>(w: WorkerDaemonAction, b: Behaviours<V, R>, subject: JavaObject<V>): Outcome<Option<R>>
  {
    match w
    case WrappedDaemonAction(c) =>
      (match b.newInstance(c)
       case Threw(t) => Threw(t)
       case Returned(_) =>
         match b.execute(c, subject)
         case Threw(t) => Threw(t)
         case Returned(_) => Returned(None))
    case WrappedDaemonTransformer(c) =>
      (match b.newInstance(c)
       case Threw(t) => Threw(t)
       case Returned(_) => b.transform(c, subject))
  }

  /** The two wrappers the adapter sends to a daemon, each naming its behaviour class. */
  datatype WorkerDaemonAction =
    | WrappedDaemonAction(actionClass: ClassName)
    | WrappedDaemonTransformer(transformerClass: ClassName)
  {
    /**
     * `execute(spec)` on the worker side: instantiate the class, run it on the
     * subject, and turn any throwable, from either step, into the result
     * envelope instead of throwing. `didWork` is true on both paths. The
     * transformer's envelope holds the produced value on success and null on
     * failure.
     */
    function Execute<V, R>(b: Behaviours<V, R>, spec: SubjectSpec<V>): (r: WorkerDaemonResult<R>)
      ensures r.didWork
      ensures r.WrappedDaemonResult? <==> WrappedDaemonTransformer?
      ensures r.IsSuccess() <==> Invoke(this, b, spec.subject).Returned?
      ensures !r.IsSuccess() ==> r.exception.value == Invoke(this, b, spec.subject).cause
      ensures r.WrappedDaemonResult? && !r.IsSuccess() ==> r.result == None
      ensures r.WrappedDaemonResult? && r.IsSuccess() ==> r.result == Invoke(this, b, spec.subject).value
    {
      match this
      case WrappedDaemonAction(c) =>
        (match b.newInstance(c)
         case Threw(t) => WorkerDaemonResult(true, Some(t))
         case Returned(_) =>
           match b.execute(c, spec.subject)
           case Threw(t) => WorkerDaemonResult(true, Some(t))
           case Returned(_) => WorkerDaemonResult(true, None))
      case WrappedDaemonTransformer(c) =>
        (match b.newInstance(c)
         case Threw(t) => WrappedDaemonResult(None, true, Some(t))
         case Returned(_) =>
           match b.transform(c, spec.subject)
           case Threw(t) => WrappedDaemonResult(None, true, Some(t))
           case Returned(v) => WrappedDaemonResult(v, true, None))
    }
  }

  /**
   * `executeAction` once the daemon has answered: on failure, throw what
   * `UncheckedException.throwAsUncheckedException` makes of the envelope's
   * exception. That utility is not part of this model; `unchecked` stands for
   * it (it passes unchecked throwables through and wraps checked ones).
   */
  function ActionAttempt<R>(unchecked: Throwable -> Throwable, r: WorkerDaemonResult<R>): Outcome<()>
  {
    if !r.IsSuccess() then Threw(unchecked(r.exception.value)) else Returned(())
  }

  /**
   * `executeTransform` once the daemon has answered: the envelope is first cast
   * to `WrappedDaemonResult` (a plain envelope raises `ClassCastException`;
   * the empty message is a placeholder for the one the JVM writes), then on
   * failure what `unchecked` makes of its exception is thrown, else its value is
   * returned.
   */
  function TransformAttempt<R>(unchecked: Throwable -> Throwable, r: WorkerDaemonResult<R>): Outcome<Option<R>>
  {
    if !r.WrappedDaemonResult? then Threw(Exception(ClassCastException, ""))
    else if !r.IsSuccess() then Threw(unchecked(r.exception.value))
    else Returned(r.result)
  }

  /** The causes of the failed outcomes, in order. */
  function Failures<X>(os: seq<Outcome<X>>): seq<Throwable>
  {
    if os == [] then []
    else (if os[0].Threw? then [os[0].cause] else []) + Failures(os[1..])
  }

  /** The values of the successful outcomes, in order. */
  function Values<X>(os: seq<Outcome<X>>): seq<X>
  {
    if os == [] then []
    else (if os[0].Returned? then [os[0].value] else []) + Values(os[1..])
  }

  /** The requests a batch sends to its daemon: one per subject, in order. */
  function Sent<V>(w: WorkerDaemonAction, subjects: seq<JavaObject<V>>): (s: seq<(WorkerDaemonAction, SubjectSpec<V>)>)
    ensures |s| == |subjects|
    ensures forall i :: 0 <= i < |subjects| ==> s[i] == (w, SubjectSpec(subjects[i]))
  {
    seq(|subjects|, i requires 0 <= i < |subjects| => (w, SubjectSpec(subjects[i])))
  }

  /** The per-subject outcomes of an action batch answered by `answer`. */
  function ActionAttempts<V, R>(unchecked: Throwable -> Throwable, answer: (WorkerDaemonAction, SubjectSpec<V>) -> WorkerDaemonResult<R>,
                                actionClass: ClassName, subjects: seq<JavaObject<V>>): (os: seq<Outcome<()>>)
    ensures |os| == |subjects|
    ensures forall i :: 0 <= i < |subjects| ==>
      os[i] == ActionAttempt(unchecked, answer(WrappedDaemonAction(actionClass), SubjectSpec(subjects[i])))
  {
    seq(|subjects|, i requires 0 <= i < |subjects| =>
      ActionAttempt(unchecked, answer(WrappedDaemonAction(actionClass), SubjectSpec(subjects[i]))))
  }

  /** The per-subject outcomes of a transform batch answered by `answer`. */
  function TransformAttempts<V, R>(unchecked: Throwable -> Throwable, answer: (WorkerDaemonAction, SubjectSpec<V>) -> WorkerDaemonResult<R>,
                                   transformerClass: ClassName, subjects: seq<JavaObject<V>>): (os: seq<Outcome<Option<R>>>)
    ensures |os| == |subjects|
    ensures forall i :: 0 <= i < |subjects| ==>
      os[i] == TransformAttempt(unchecked, answer(WrappedDaemonTransformer(transformerClass), SubjectSpec(subjects[i])))
  {
    seq(|subjects|, i requires 0 <= i < |subjects| =>
      TransformAttempt(unchecked, answer(WrappedDaemonTransformer(transformerClass), SubjectSpec(subjects[i]))))
  }

  /**
   * What `executeAllInDaemon` ends with: nothing for a null or empty batch;
   * otherwise one multi-cause exception holding every recorded failure, if any.
   */
  function ExecuteAllOutcome<V, R>(unchecked: Throwable -> Throwable, answer: (WorkerDaemonAction, SubjectSpec<V>) -> WorkerDaemonResult<R>,
                                   actionClass: ClassName, subjects: Option<seq<JavaObject<V>>>): Outcome<()>
  {
    var failures := Failures(ActionAttempts(unchecked, answer, actionClass, OrEmpty(subjects)));
    if |OrEmpty(subjects)| > 0 && |failures| > 0 then Threw(MultiCauseException(ActionsFailedMessage, failures))
    else Returned(())
  }

  /**
   * What `transformAllInDaemon` ends with: an empty list for a null or empty
   * batch; otherwise one multi-cause exception holding every recorded failure if
   * there is one, else the results in subject order.
   */
  function TransformAllOutcome<V, R>(unchecked: Throwable -> Throwable, answer: (WorkerDaemonAction, SubjectSpec<V>) -> WorkerDaemonResult<R>,
                                     transformerClass: ClassName, subjects: Option<seq<JavaObject<V>>>): Outcome<seq<Option<R>>>
  {
    var attempts := TransformAttempts(unchecked, answer, transformerClass, OrEmpty(subjects));
    if |OrEmpty(subjects)| > 0 && |Failures(attempts)| > 0
    then Threw(MultiCauseException(TransformsFailedMessage, Failures(attempts)))
    else Returned(Values(attempts))
  }

  /** What `transformInDaemon` ends with: element 0 of the one-subject batch, or null for an empty list. */
  function TransformOneOutcome<V, R>(unchecked: Throwable -> Throwable, answer: (WorkerDaemonAction, SubjectSpec<V>) -> WorkerDaemonResult<R>,
                                     transformerClass: ClassName, subject: JavaObject<V>): Outcome<Option<R>>
  {
    match TransformAllOutcome(unchecked, answer, transformerClass, Some([subject]))
    case Threw(t) => Threw(t)
    case Returned(results) => Returned(if |results| > 0 then results[0] else None)
  }

  // ---------------------------------------------------------------------------
  // Failures and values of a sequence of outcomes
  // ---------------------------------------------------------------------------

  /** Splitting the outcomes splits the failures and the values the same way: both keep input order. */
  lemma {:induction false} FailuresAndValuesAppend<X>(a: seq<Outcome<X>>, b: seq<Outcome<X>>)
    ensures Failures(a + b) == Failures(a) + Failures(b)
    ensures Values(a + b) == Values(a) + Values(b)
  {
    if a != [] {
      assert (a + b)[1..] == a[1..] + b;
      FailuresAndValuesAppend(a[1..], b);
    } else {
      assert a + b == b;
    }
  }

  /** Every outcome is either a success or a failure: the counts add up. */
  lemma {:induction false} FailuresPlusValues<X>(os: seq<Outcome<X>>)
    ensures |Failures(os)| + |Values(os)| == |os|
  {
    if os != [] {
      FailuresPlusValues(os[1..]);
    }
  }

  /** There are no failures exactly when every outcome returned. */
  lemma {:induction false} NoFailuresIffAllReturned<X>(os: seq<Outcome<X>>)
    ensures Failures(os) == [] <==> forall i :: 0 <= i < |os| ==> os[i].Returned?
  {
    if os != [] {
      NoFailuresIffAllReturned(os[1..]);
      assert forall i :: 1 <= i < |os| ==> os[i] == os[1..][i - 1];
    }
  }

  /** With no failures, the values are the outcomes' values one for one. */
  lemma {:induction false} ValuesWithoutFailures<X>(os: seq<Outcome<X>>)
    requires Failures(os) == []
    ensures |Values(os)| == |os|
    ensures forall i :: 0 <= i < |os| ==> os[i].Returned? && Values(os)[i] == os[i].value
  {
    if os != [] {
      ValuesWithoutFailures(os[1..]);
      assert forall i :: 1 <= i < |os| ==> os[i] == os[1..][i - 1];
    }
  }

  /** The cause of every failed outcome is among the recorded failures. */
  lemma {:induction false} EveryFailureRecorded<X>(os: seq<Outcome<X>>, i: nat)
    requires i < |os| && os[i].Threw?
    ensures os[i].cause in Failures(os)
  {
    if i > 0 {
      assert os[i] == os[1..][i - 1];
      EveryFailureRecorded(os[1..], i - 1);
    }
  }

  /** One more subject of an action batch: one more request sent, and its failure, if any, recorded. */
  lemma ActionStep<V, R>(unchecked: Throwable -> Throwable, answer: (WorkerDaemonAction, SubjectSpec<V>) -> WorkerDaemonResult<R>,
                         actionClass: ClassName, items: seq<JavaObject<V>>, i: nat, attempt: Outcome<()>)
    requires i < |items|
    requires attempt == ActionAttempt(unchecked, answer(WrappedDaemonAction(actionClass), SubjectSpec(items[i])))
    ensures Sent(WrappedDaemonAction(actionClass), items[..i + 1])
         == Sent(WrappedDaemonAction(actionClass), items[..i]) + [(WrappedDaemonAction(actionClass), SubjectSpec(items[i]))]
    ensures Failures(ActionAttempts(unchecked, answer, actionClass, items[..i + 1]))
         == Failures(ActionAttempts(unchecked, answer, actionClass, items[..i])) + (if attempt.Threw? then [attempt.cause] else [])
  {
    var os := ActionAttempts(unchecked, answer, actionClass, items[..i + 1]);
    assert os == ActionAttempts(unchecked, answer, actionClass, items[..i]) + [attempt];
    FailuresAndValuesAppend(ActionAttempts(unchecked, answer, actionClass, items[..i]), [attempt]);
    assert [attempt][1..] == [];
  }

  /** One more subject of a transform batch: one more request sent, and its failure or its result recorded. */
  lemma TransformStep<V, R>(unchecked: Throwable -> Throwable, answer: (WorkerDaemonAction, SubjectSpec<V>) -> WorkerDaemonResult<R>,
                            transformerClass: ClassName, items: seq<JavaObject<V>>, i: nat, attempt: Outcome<Option<R>>)
    requires i < |items|
    requires attempt == TransformAttempt(unchecked, answer(WrappedDaemonTransformer(transformerClass), SubjectSpec(items[i])))
    ensures Sent(WrappedDaemonTransformer(transformerClass), items[..i + 1])
         == Sent(WrappedDaemonTransformer(transformerClass), items[..i])
            + [(WrappedDaemonTransformer(transformerClass), SubjectSpec(items[i]))]
    ensures Failures(TransformAttempts(unchecked, answer, transformerClass, items[..i + 1]))
         == Failures(TransformAttempts(unchecked, answer, transformerClass, items[..i])) + (if attempt.Threw? then [attempt.cause] else [])
    ensures Values(TransformAttempts(unchecked, answer, transformerClass, items[..i + 1]))
         == Values(TransformAttempts(unchecked, answer, transformerClass, items[..i])) + (if attempt.Returned? then [attempt.value] else [])
  {
    var os := TransformAttempts(unchecked, answer, transformerClass, items[..i + 1]);
    assert os == TransformAttempts(unchecked, answer, transformerClass, items[..i]) + [attempt];
    FailuresAndValuesAppend(TransformAttempts(unchecked, answer, transformerClass, items[..i]), [attempt]);
    assert [attempt][1..] == [];
  }

  // ---------------------------------------------------------------------------
  // The batch contracts
  // ---------------------------------------------------------------------------

  /** A null or empty batch ends normally; the transform variant returns the empty list. */
  lemma EmptyBatchEndsNormally<V, R>(unchecked: Throwable -> Throwable, answer: (WorkerDaemonAction, SubjectSpec<V>) -> WorkerDaemonResult<R>,
                                     cls: ClassName, subjects: Option<seq<JavaObject<V>>>)
    requires OrEmpty(subjects) == []
    ensures ExecuteAllOutcome(unchecked, answer, cls, subjects) == Returned(())
    ensures TransformAllOutcome(unchecked, answer, cls, subjects) == Returned([])
  {
  }

  /**
   * An action batch raises exactly when some subject failed, and then raises
   * one multi-cause exception whose causes are one per failed subject, so their
   * number plus the number of successes is the number of subjects.
   */
  lemma ExecuteAllRaisesIffSomeFailure<V, R>(unchecked: Throwable -> Throwable, answer: (WorkerDaemonAction, SubjectSpec<V>) -> WorkerDaemonResult<R>,
                                             actionClass: ClassName, subjects: Option<seq<JavaObject<V>>>)
    ensures var os := ActionAttempts(unchecked, answer, actionClass, OrEmpty(subjects));
      && (ExecuteAllOutcome(unchecked, answer, actionClass, subjects).Threw? <==> exists i :: 0 <= i < |os| && os[i].Threw?)
      && (ExecuteAllOutcome(unchecked, answer, actionClass, subjects).Threw? ==>
            var t := ExecuteAllOutcome(unchecked, answer, actionClass, subjects).cause;
            && t.MultiCauseException? && t.message == ActionsFailedMessage
            && t.causes == Failures(os)
            && |t.causes| + |Values(os)| == |OrEmpty(subjects)|
            && forall i :: 0 <= i < |os| && os[i].Threw? ==> os[i].cause in t.causes)
  {
    var os := ActionAttempts(unchecked, answer, actionClass, OrEmpty(subjects));
    NoFailuresIffAllReturned(os);
    FailuresPlusValues(os);
    forall i | 0 <= i < |os| && os[i].Threw? ensures os[i].cause in Failures(os) {
      EveryFailureRecorded(os, i);
    }
  }

  /**
   * A transform batch returns a list exactly when no subject failed; the list
   * then has one element per subject, element i being subject i's result. On
   * any failure no list is returned: one multi-cause exception carries one
   * cause per failed subject.
   */
  lemma TransformAllContract<V, R>(unchecked: Throwable -> Throwable, answer: (WorkerDaemonAction, SubjectSpec<V>) -> WorkerDaemonResult<R>,
                                   transformerClass: ClassName, subjects: Option<seq<JavaObject<V>>>)
    ensures var os := TransformAttempts(unchecked, answer, transformerClass, OrEmpty(subjects));
      var r := TransformAllOutcome(unchecked, answer, transformerClass, subjects);
      && (r.Returned? <==> forall i :: 0 <= i < |os| ==> os[i].Returned?)
      && (r.Returned? ==>
            && |r.value| == |OrEmpty(subjects)|
            && forall i :: 0 <= i < |os| ==> r.value[i] == os[i].value)
      && (r.Threw? ==>
            && r.cause.MultiCauseException? && r.cause.message == TransformsFailedMessage
            && r.cause.causes == Failures(os)
            && |r.cause.causes| + |Values(os)| == |OrEmpty(subjects)|
            && forall i :: 0 <= i < |os| && os[i].Threw? ==> os[i].cause in r.cause.causes)
  {
    var os := TransformAttempts(unchecked, answer, transformerClass, OrEmpty(subjects));
    NoFailuresIffAllReturned(os);
    FailuresPlusValues(os);
    if Failures(os) == [] {
      ValuesWithoutFailures(os);
    }
    forall i | 0 <= i < |os| && os[i].Threw? ensures os[i].cause in Failures(os) {
      EveryFailureRecorded(os, i);
    }
  }

  /**
   * `transformInDaemon` on one subject: its result on success, else a
   * multi-cause exception with that one cause. The null returned for an empty
   * list is never reached.
   */
  lemma TransformOneIsSingleAttempt<V, R>(unchecked: Throwable -> Throwable, answer: (WorkerDaemonAction, SubjectSpec<V>) -> WorkerDaemonResult<R>,
                                          transformerClass: ClassName, subject: JavaObject<V>)
    ensures TransformOneOutcome(unchecked, answer, transformerClass, subject)
         == match TransformAttempt(unchecked, answer(WrappedDaemonTransformer(transformerClass), SubjectSpec(subject)))
            case Returned(v) => Returned(v)
            case Threw(t) => Threw(MultiCauseException(TransformsFailedMessage, [t]))
  {
    var os := TransformAttempts(unchecked, answer, transformerClass, [subject]);
    assert os[1..] == [];
    assert Failures(os) == (if os[0].Threw? then [os[0].cause] else []);
    assert Values(os) == (if os[0].Returned? then [os[0].value] else []);
  }

  /** `executeInDaemon` on one subject: normal on success, else a multi-cause exception with that one cause. */
  lemma ExecuteOneIsSingleAttempt<V, R>(unchecked: Throwable -> Throwable, answer: (WorkerDaemonAction, SubjectSpec<V>) -> WorkerDaemonResult<R>,
                                        actionClass: ClassName, subject: JavaObject<V>)
    ensures ExecuteAllOutcome(unchecked, answer, actionClass, Some([subject]))
         == match ActionAttempt(unchecked, answer(WrappedDaemonAction(actionClass), SubjectSpec(subject)))
            case Returned(_) => Returned(())
            case Threw(t) => Threw(MultiCauseException(ActionsFailedMessage, [t]))
  {
    var os := ActionAttempts(unchecked, answer, actionClass, [subject]);
    assert os[1..] == [];
    assert Failures(os) == (if os[0].Threw? then [os[0].cause] else []);
  }

  /**
   * Across the daemon boundary: when the daemon answers with the wrapper's own
   * result, the adapter ends as running the behaviour locally would, except
   * that a throwable comes back as what `unchecked` makes of it.
   */
  lemma WrappedRoundTrip<V, R>(unchecked: Throwable -> Throwable, b: Behaviours<V, R>, cls: ClassName, subject: JavaObject<V>)
    ensures ActionAttempt(unchecked, WrappedDaemonAction(cls).Execute(b, SubjectSpec(subject)))
         == match Invoke(WrappedDaemonAction(cls), b, subject)
            case Returned(_) => Returned(())
            case Threw(t) => Threw(unchecked(t))
    ensures TransformAttempt(unchecked, WrappedDaemonTransformer(cls).Execute(b, SubjectSpec(subject)))
         == match Invoke(WrappedDaemonTransformer(cls), b, subject)
            case Returned(v) => Returned(v)
            case Threw(t) => Threw(unchecked(t))
  {
  }

  /**
   * Two subjects, a transformer that fails on the second only: one multi-cause
   * exception with exactly that one cause, and no list.
   */
  lemma SecondOfTwoFails<V, R>(unchecked: Throwable -> Throwable, answer: (WorkerDaemonAction, SubjectSpec<V>) -> WorkerDaemonResult<R>,
                               cls: ClassName, s1: JavaObject<V>, s2: JavaObject<V>, v: Option<R>, t: Throwable)
    requires answer(WrappedDaemonTransformer(cls), SubjectSpec(s1)) == WrappedDaemonResult(v, true, None)
    requires answer(WrappedDaemonTransformer(cls), SubjectSpec(s2)) == WrappedDaemonResult(None, true, Some(t))
    ensures TransformAllOutcome(unchecked, answer, cls, Some([s1, s2]))
         == Threw(MultiCauseException(TransformsFailedMessage, [unchecked(t)]))
  {
    var os := TransformAttempts(unchecked, answer, cls, [s1, s2]);
    assert os == [Returned(v), Threw(unchecked(t))];
    assert os[1..] == [Threw(unchecked(t))] && os[1..][1..] == [];
    assert Failures(os[1..]) == [unchecked(t)];
    assert Failures(os) == [unchecked(t)];
  }

  // ---------------------------------------------------------------------------
  // The adapter
  // ---------------------------------------------------------------------------

  /**
   * `DefaultWorkerDaemonAdapter` over a factory whose daemons answer through
   * `workerDaemonFactory.answer`; `jvm` is what reflection reports in the
   * caller's JVM, and `throwAsUnchecked` is what
   * `UncheckedException.throwAsUncheckedException` throws for a given throwable.
   */
  class DefaultWorkerDaemonAdapter<V, R> {
    const workerDaemonFactory: WorkerDaemonFactory<WorkerDaemonAction, SubjectSpec<V>, WorkerDaemonResult<R>>
    const jvm: ClassModel
    const throwAsUnchecked: Throwable -> Throwable

    constructor (workerDaemonFactory: WorkerDaemonFactory<WorkerDaemonAction, SubjectSpec<V>, WorkerDaemonResult<R>>,
                 jvm: ClassModel, throwAsUnchecked: Throwable -> Throwable)
      ensures this.workerDaemonFactory == workerDaemonFactory && this.jvm == jvm
      ensures this.throwAsUnchecked == throwAsUnchecked
    {
      this.workerDaemonFactory := workerDaemonFactory;
      this.jvm := jvm;
      this.throwAsUnchecked := throwAsUnchecked;
    }

    /** `toDaemonOptions`: the options built entry by entry, as the builders do. */
    method ToDaemonOptions(actionClass: ClassName, subjectClass: ClassName, forkOptions: JavaForkOptions,
                           classpath: Option<seq<File>>, sharedPackages: Option<seq<string>>)
      returns (options: DaemonForkOptions)
      ensures options == DaemonOptionsFor(jvm, actionClass, subjectClass, forkOptions, classpath, sharedPackages)
    {
      var classpathBuilder: seq<File> := [];
      if classpath.Some? {
        classpathBuilder := classpathBuilder + classpath.value;
      }
      assert classpathBuilder == OrEmpty(classpath);
      classpathBuilder := classpathBuilder + [jvm.classpathForClass(ActionInterface)];
      classpathBuilder := classpathBuilder + [jvm.classpathForClass(actionClass)];
      if jvm.hasClassLoader(subjectClass) {
        classpathBuilder := classpathBuilder + [jvm.classpathForClass(subjectClass)];
      }
      assert classpathBuilder == DaemonClasspath(jvm, actionClass, subjectClass, OrEmpty(classpath));

      var sharedPackagesBuilder: seq<string> := [];
      if sharedPackages.Some? {
        sharedPackagesBuilder := sharedPackagesBuilder + sharedPackages.value;
      }
      assert sharedPackagesBuilder == OrEmpty(sharedPackages);
      if jvm.packageName(actionClass).Some? {
        sharedPackagesBuilder := sharedPackagesBuilder + [jvm.packageName(actionClass).value];
      }
      assert sharedPackagesBuilder == OrEmpty(sharedPackages) + ToSeq(jvm.packageName(actionClass));
      if jvm.packageName(subjectClass).Some? {
        sharedPackagesBuilder := sharedPackagesBuilder + [jvm.packageName(subjectClass).value];
      }
      assert sharedPackagesBuilder == OrEmpty(sharedPackages) + ToSeq(jvm.packageName(actionClass))
                                      + ToSeq(jvm.packageName(subjectClass));
      sharedPackagesBuilder := sharedPackagesBuilder + [GradleApiPackage];
      assert sharedPackagesBuilder == DaemonSharedPackages(jvm, actionClass, subjectClass, OrEmpty(sharedPackages));

      options := DaemonForkOptions(forkOptions.minHeapSize, forkOptions.maxHeapSize, forkOptions.allJvmArgs,
                                   classpathBuilder, sharedPackagesBuilder);
    }

    /** `executeAction`: one request to the daemon; on failure, the envelope's exception as `throwAsUnchecked` rethrows it. */
    method ExecuteAction(daemon: WorkerDaemon<WorkerDaemonAction, SubjectSpec<V>, WorkerDaemonResult<R>>,
                         workerAction: WorkerDaemonAction, subject: JavaObject<V>)
      returns (outcome: Outcome<()>)
      modifies daemon
      ensures daemon.received == old(daemon.received) + [(workerAction, SubjectSpec(subject))]
      ensures outcome == ActionAttempt(throwAsUnchecked, daemon.answer(workerAction, SubjectSpec(subject)))
    {
      var spec := SubjectSpec(subject);
      var result := daemon.Execute(workerAction, spec);
      if !result.IsSuccess() {
        return Threw(throwAsUnchecked(result.exception.value));
      }
      outcome := Returned(());
    }

    /** `executeTransform`: one request to the daemon, cast, then the exception as `throwAsUnchecked` rethrows it, or the value. */
    method ExecuteTransform(daemon: WorkerDaemon<WorkerDaemonAction, SubjectSpec<V>, WorkerDaemonResult<R>>,
                            workerTransform: WorkerDaemonAction, subject: JavaObject<V>)
      returns (outcome: Outcome<Option<R>>)
      modifies daemon
      ensures daemon.received == old(daemon.received) + [(workerTransform, SubjectSpec(subject))]
      ensures outcome == TransformAttempt(throwAsUnchecked, daemon.answer(workerTransform, SubjectSpec(subject)))
    {
      var spec := SubjectSpec(subject);
      var result := daemon.Execute(workerTransform, spec);
      if !result.WrappedDaemonResult? {
        return Threw(Exception(ClassCastException, ""));
      }
      if !result.IsSuccess() {
        return Threw(throwAsUnchecked(result.exception.value));
      }
      outcome := Returned(result.result);
    }

    /**
     * `executeAllInDaemon`. A null or empty batch asks the factory for nothing.
     * Otherwise exactly one daemon is requested, with options from the action
     * class and the first subject's class, and every subject is sent to that
     * daemon, in order, whatever happened to the earlier ones.
     */
    method ExecuteAllInDaemon(forkOptions: JavaForkOptions, classpath: Option<seq<File>>,
                              sharedPackages: Option<seq<string>>, actionClass: ClassName,
                              subjects: Option<seq<JavaObject<V>>>)
      returns (outcome: Outcome<()>, ghost daemon: WorkerDaemon?<WorkerDaemonAction, SubjectSpec<V>, WorkerDaemonResult<R>>)
      modifies workerDaemonFactory
      ensures outcome == ExecuteAllOutcome(throwAsUnchecked, workerDaemonFactory.answer, actionClass, subjects)
      ensures OrEmpty(subjects) == [] ==> workerDaemonFactory.requests == old(workerDaemonFactory.requests) && daemon == null
      ensures OrEmpty(subjects) != [] ==>
        var options := DaemonOptionsFor(jvm, actionClass, OrEmpty(subjects)[0].cls, forkOptions, classpath, sharedPackages);
        && workerDaemonFactory.requests == old(workerDaemonFactory.requests) + [(forkOptions.workingDir, options)]
        && daemon != null && fresh(daemon) && daemon.options == options
        && daemon.received == Sent(WrappedDaemonAction(actionClass), OrEmpty(subjects))
    {
      var items := OrEmpty(subjects);
      if |items| == 0 {
        return Returned(()), null;
      }
      var subjectClass := items[0].cls;
      var options := ToDaemonOptions(actionClass, subjectClass, forkOptions, classpath, sharedPackages);
      var d := workerDaemonFactory.GetDaemon(forkOptions.workingDir, options);
      var workerAction := WrappedDaemonAction(actionClass);
      var failures: seq<Throwable> := [];
      var i := 0;
      while i < |items|
        invariant 0 <= i <= |items|
        invariant d.received == Sent(workerAction, items[..i])
        invariant failures == Failures(ActionAttempts(throwAsUnchecked, d.answer, actionClass, items[..i]))
        invariant workerDaemonFactory.requests == old(workerDaemonFactory.requests) + [(forkOptions.workingDir, options)]
      {
        var attempt := ExecuteAction(d, workerAction, items[i]);
        ActionStep(throwAsUnchecked, d.answer, actionClass, items, i, attempt);
        if attempt.Threw? {
          failures := failures + [attempt.cause];
        }
        i := i + 1;
      }
      assert items[..i] == items;
      if |failures| > 0 {
        outcome := Threw(MultiCauseException(ActionsFailedMessage, failures));
      } else {
        outcome := Returned(());
      }
      daemon := d;
    }

    /** `executeInDaemon`: exactly `executeAllInDaemon` on the one-element list. */
    method ExecuteInDaemon(forkOptions: JavaForkOptions, classpath: Option<seq<File>>,
                           sharedPackages: Option<seq<string>>, actionClass: ClassName, subject: JavaObject<V>)
      returns (outcome: Outcome<()>, ghost daemon: WorkerDaemon?<WorkerDaemonAction, SubjectSpec<V>, WorkerDaemonResult<R>>)
      modifies workerDaemonFactory
      ensures outcome == ExecuteAllOutcome(throwAsUnchecked, workerDaemonFactory.answer, actionClass, Some([subject]))
      ensures workerDaemonFactory.requests == old(workerDaemonFactory.requests)
        + [(forkOptions.workingDir, DaemonOptionsFor(jvm, actionClass, subject.cls, forkOptions, classpath, sharedPackages))]
      ensures daemon != null && fresh(daemon) && daemon.received == [(WrappedDaemonAction(actionClass), SubjectSpec(subject))]
    {
      outcome, daemon := ExecuteAllInDaemon(forkOptions, classpath, sharedPackages, actionClass, Some([subject]));
    }

    /**
     * `transformAllInDaemon`: the same orchestration as `executeAllInDaemon`,
     * also collecting each successful result, in order.
     */
    method TransformAllInDaemon(forkOptions: JavaForkOptions, classpath: Option<seq<File>>,
                                sharedPackages: Option<seq<string>>, transformerClass: ClassName,
                                subjects: Option<seq<JavaObject<V>>>)
      returns (outcome: Outcome<seq<Option<R>>>, ghost daemon: WorkerDaemon?<WorkerDaemonAction, SubjectSpec<V>, WorkerDaemonResult<R>>)
      modifies workerDaemonFactory
      ensures outcome == TransformAllOutcome(throwAsUnchecked, workerDaemonFactory.answer, transformerClass, subjects)
      ensures OrEmpty(subjects) == [] ==> workerDaemonFactory.requests == old(workerDaemonFactory.requests) && daemon == null
      ensures OrEmpty(subjects) != [] ==>
        var options := DaemonOptionsFor(jvm, transformerClass, OrEmpty(subjects)[0].cls, forkOptions, classpath, sharedPackages);
        && workerDaemonFactory.requests == old(workerDaemonFactory.requests) + [(forkOptions.workingDir, options)]
        && daemon != null && fresh(daemon) && daemon.options == options
        && daemon.received == Sent(WrappedDaemonTransformer(transformerClass), OrEmpty(subjects))
    {
      var results: seq<Option<R>> := [];
      var items := OrEmpty(subjects);
      if |items| == 0 {
        return Returned(results), null;
      }
      var subjectClass := items[0].cls;
      var options := ToDaemonOptions(transformerClass, subjectClass, forkOptions, classpath, sharedPackages);
      var d := workerDaemonFactory.GetDaemon(forkOptions.workingDir, options);
      var workerTransform := WrappedDaemonTransformer(transformerClass);
      var failures: seq<Throwable> := [];
      var i := 0;
      while i < |items|
        invariant 0 <= i <= |items|
        invariant d.received == Sent(workerTransform, items[..i])
        invariant failures == Failures(TransformAttempts(throwAsUnchecked, d.answer, transformerClass, items[..i]))
        invariant results == Values(TransformAttempts(throwAsUnchecked, d.answer, transformerClass, items[..i]))
        invariant workerDaemonFactory.requests == old(workerDaemonFactory.requests) + [(forkOptions.workingDir, options)]
      {
        var attempt := ExecuteTransform(d, workerTransform, items[i]);
        TransformStep(throwAsUnchecked, d.answer, transformerClass, items, i, attempt);
        if attempt.Returned? {
          results := results + [attempt.value];
        } else {
          failures := failures + [attempt.cause];
        }
        i := i + 1;
      }
      assert items[..i] == items;
      if |failures| > 0 {
        outcome := Threw(MultiCauseException(TransformsFailedMessage, failures));
      } else {
        outcome := Returned(results);
      }
      daemon := d;
    }

    /** `transformInDaemon`: `transformAllInDaemon` on the one-element list, element 0 or null. */
    method TransformInDaemon(forkOptions: JavaForkOptions, classpath: Option<seq<File>>,
                             sharedPackages: Option<seq<string>>, transformerClass: ClassName, subject: JavaObject<V>)
      returns (outcome: Outcome<Option<R>>, ghost daemon: WorkerDaemon?<WorkerDaemonAction, SubjectSpec<V>, WorkerDaemonResult<R>>)
      modifies workerDaemonFactory
      ensures outcome == TransformOneOutcome(throwAsUnchecked, workerDaemonFactory.answer, transformerClass, subject)
      ensures workerDaemonFactory.requests == old(workerDaemonFactory.requests)
        + [(forkOptions.workingDir, DaemonOptionsFor(jvm, transformerClass, subject.cls, forkOptions, classpath, sharedPackages))]
      ensures daemon != null && fresh(daemon) && daemon.received == [(WrappedDaemonTransformer(transformerClass), SubjectSpec(subject))]
    {
      var all;
      all, daemon := TransformAllInDaemon(forkOptions, classpath, sharedPackages, transformerClass, Some([subject]));
      match all
      case Threw(t) => outcome := Threw(t);
      case Returned(results) =>
        if |results| > 0 {
          outcome := Returned(results[0]);
        } else {
          outcome := Returned(None);
        }
    }
  }
}

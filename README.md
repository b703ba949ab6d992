# Worker daemon adapter — a Dafny model

This project models the part of Gradle that hands units of work to long-lived
worker daemons (separate JVMs with their own heap bounds, JVM arguments,
classpath and shared packages):

- `DefaultWorkerDaemonAdapter` runs a batch of subjects through an action class
  or a transformer class. It derives one set of daemon options from the behaviour
  class and the class of the first subject. It acquires one daemon and sends every
  subject to it, in order. It keeps going after a failure, and at the end it
  raises one multi-cause exception holding every failure, or (for transforms)
  returns the results in order.
- The daemon options construction, written out twice in the source (the adapter's
  `toDaemonOptions` and the task's `getDaemonOptions`).
- The worker-side wrappers (`WrappedDaemonAction`, `WrappedDaemonTransformer`,
  `WrappedDaemonRunnable`). Each instantiates the behaviour, runs it, and turns
  any throwable into a result envelope instead of throwing.
- `WorkerDaemonTask`: its fields with their setters and getters, and the guards
  and forwards it places in front of an adapter.
- `WorkerDaemonRunnableBuilder`: `build()` computes the spec and the options up
  front. The returned `run()` acquires a daemon and executes the wrapped runnable.
- `OpaqueComponentArtifactIdentifier`: a value type whose equality and hash code
  depend only on its display name.

Files, one module each: `jvm.dfy` (nullable values, throwables, classes and the
reflective facts about them), `worker_daemons.dfy` (daemon options, the result
envelope, the daemon and the factory), `daemon_adapter.dfy`, `daemon_task.dfy`,
`runnable_builder.dfy`, `artifact_identifier.dfy`.

Modelling choices:

- Java `null` is `Option.None`. A thrown exception is an `Outcome.Threw`
  value. `DefaultMultiCauseException` is `Throwable.MultiCauseException`, a
  message plus the ordered list of causes.
- Reflection is uninterpreted. A `ClassModel` holds three functions:
  `ClasspathUtil.getClasspathForClass`, `getPackage()` and "class loader is
  non-null". `Behaviours` (worker side) holds `newInstance`, the behaviour's
  `execute` and its `transform`. `RunnableBehaviours` holds `DirectInstantiator`
  and `run()`. Every property holds for every choice of these functions.
- A worker daemon answers through an oracle fixed when it is created, and it
  records every request it receives. The factory records every `getDaemon` call
  with its arguments, so the number of calls is the length of that record. Each
  batch method returns, as a ghost value, the daemon it used, so its contract
  can say that subject i was the i-th request to that one daemon.
- `WorkerDaemonResult` is not part of this model's sources. Its `isSuccess()` is
  taken to mean "the exception is null". The wrappers pass `didWork = true` on
  both the success and the failure path (DefaultWorkerDaemonAdapter.java:185,187).
  `Execute` states this.
- On failure, `executeAction` and `executeTransform` throw `UncheckedException.throwAsUncheckedException(exception)`. That utility is a given function of the adapter, `throwAsUnchecked`. So every recorded cause is that function applied to the envelope's exception.
- `executeTransform` casts the daemon's answer to `WrappedDaemonResult` before it
  checks `isSuccess()`. A plain envelope therefore raises `ClassCastException` (with an empty placeholder message, not the JVM's),
  and the model keeps that order.
- A transformer may return `null`, so results are `Option<R>` and the result list
  may contain `None`.
- `WorkerDaemonTask`'s two batch forwards pass the whole `subjects` iterable to
  the adapter's single-subject `executeInDaemon` overload
  (WorkerDaemonTask.java:82,94). This does not match that overload's parameter
  type (one subject, WorkerDaemonAdapter.java:46,68). The model records only
  what is observable: no adapter call for a null or empty batch, otherwise one
  call whose argument is the whole batch, marked `WholeBatch`.
  `OneElementBatchVersusSingleCall` shows the difference from the single-subject
  forward.

## Model

| member | source | states |
|---|---|---|
| WorkerDaemons.DaemonClasspath | subprojects/core/src/main/java/org/gradle/process/internal/daemon/DefaultWorkerDaemonAdapter.java:127-137 | the classpath is the caller's entries, then the location of `Action`, then the action class's location, then the subject class's location only if its class loader is non-null; length caller+2 or caller+3 |
| WorkerDaemons.DaemonSharedPackages | subprojects/core/src/main/java/org/gradle/process/internal/daemon/DefaultWorkerDaemonAdapter.java:139-151 | the shared packages are the caller's packages, then the action package if present, then the subject package if present, and `org.gradle.api` is always last |
| WorkerDaemons.SharedPackagesKeepDuplicates | subprojects/core/src/main/java/org/gradle/process/internal/daemon/DefaultWorkerDaemonAdapter.java:139-151 | nothing is de-duplicated: the multiset of the shared packages is the sum of its parts, so a package named twice is shared twice |
| WorkerDaemons.DaemonOptionsFor | subprojects/core/src/main/java/org/gradle/process/internal/daemon/DefaultWorkerDaemonAdapter.java:126-153 | min heap, max heap and JVM arguments are forwarded unchanged; a null classpath or package list counts as empty and is a prefix of the result; the last package is `org.gradle.api` |
| WorkerDaemons.SharedPackagesExample | subprojects/core/src/main/java/org/gradle/api/tasks/WorkerDaemonTask.java:117-129 | caller package `p3`, action package `p1` and subject package `p2` give exactly `p3, p1, p2, org.gradle.api` |
| WorkerDaemons.WorkerDaemon.Execute | subprojects/core/src/main/java/org/gradle/process/internal/daemon/DefaultWorkerDaemonAdapter.java:76 | one execution appends exactly one request to the daemon's record and returns the daemon's answer for it |
| WorkerDaemons.WorkerDaemonFactory.GetDaemon | subprojects/core/src/main/java/org/gradle/process/internal/daemon/DefaultWorkerDaemonAdapter.java:52 | each call is recorded with its working dir and options, and yields a daemon for exactly those options |
| DaemonAdapter.WorkerDaemonAction.Execute | subprojects/core/src/main/java/org/gradle/process/internal/daemon/DefaultWorkerDaemonAdapter.java:181-226 | the wrapper never throws; it succeeds exactly when instantiation and the behaviour both return; otherwise the envelope holds the throwable that either step threw; `didWork` is always true; the transformer's result is null on failure and the produced value on success |
| DaemonAdapter.WrappedRoundTrip | subprojects/core/src/main/java/org/gradle/process/internal/daemon/DefaultWorkerDaemonAdapter.java:117-124 | wrapping on the worker side and then rethrowing in `executeAction`/`executeTransform` gives what running the behaviour locally would give, except that a throwable comes back as `throwAsUncheckedException` makes it: unchanged if it is unchecked, wrapped if it is checked |
| DaemonAdapter.ActionStep | subprojects/core/src/main/java/org/gradle/process/internal/daemon/DefaultWorkerDaemonAdapter.java:55-61 | one more subject of an action batch sends one more request, at the end, and adds its cause to the failures exactly when it failed |
| DaemonAdapter.TransformStep | subprojects/core/src/main/java/org/gradle/process/internal/daemon/DefaultWorkerDaemonAdapter.java:91-98 | one more subject of a transform batch sends one more request, at the end, and adds either its cause to the failures or its result to the results |
| DaemonAdapter.FailuresAndValuesAppend | subprojects/core/src/main/java/org/gradle/process/internal/daemon/DefaultWorkerDaemonAdapter.java:91-98 | failures and results split over concatenation, so both keep the subjects' order |
| DaemonAdapter.FailuresPlusValues | subprojects/core/src/main/java/org/gradle/process/internal/daemon/DefaultWorkerDaemonAdapter.java:55-61 | the number of failures plus the number of successes equals the number of subjects |
| DaemonAdapter.NoFailuresIffAllReturned | subprojects/core/src/main/java/org/gradle/process/internal/daemon/DefaultWorkerDaemonAdapter.java:63-64 | there are no failures if and only if every subject's attempt returned |
| DaemonAdapter.ValuesWithoutFailures | subprojects/core/src/main/java/org/gradle/process/internal/daemon/DefaultWorkerDaemonAdapter.java:91-104 | with no failures there is one result per subject, and element i is subject i's result |
| DaemonAdapter.EveryFailureRecorded | subprojects/core/src/main/java/org/gradle/process/internal/daemon/DefaultWorkerDaemonAdapter.java:58-59 | the cause of every failed subject is among the recorded failures |
| DaemonAdapter.EmptyBatchEndsNormally | subprojects/core/src/main/java/org/gradle/process/internal/daemon/DefaultWorkerDaemonAdapter.java:84-104 | a null or empty batch ends normally, and the transform variant returns the empty list |
| DaemonAdapter.ExecuteAllRaisesIffSomeFailure | subprojects/core/src/main/java/org/gradle/process/internal/daemon/DefaultWorkerDaemonAdapter.java:54-65 | an action batch raises if and only if some subject failed; it then raises one multi-cause exception with every cause in order of occurrence, whose count plus the successes is the number of subjects |
| DaemonAdapter.TransformAllContract | subprojects/core/src/main/java/org/gradle/process/internal/daemon/DefaultWorkerDaemonAdapter.java:90-104 | a transform batch returns a list if and only if no subject failed; the list has one element per subject, in order; on any failure no list is returned, and one multi-cause exception carries one cause per failed subject |
| DaemonAdapter.SecondOfTwoFails | subprojects/core/src/main/java/org/gradle/process/internal/daemon/DefaultWorkerDaemonAdapter.java:91-101 | two subjects where only the second fails: exactly one cause is raised, and the first result is not returned |
| DaemonAdapter.ExecuteOneIsSingleAttempt | subprojects/core/src/main/java/org/gradle/process/internal/daemon/DefaultWorkerDaemonAdapter.java:70-72 | the one-subject action call ends normally on success and otherwise raises a multi-cause exception with exactly that one cause |
| DaemonAdapter.TransformOneIsSingleAttempt | subprojects/core/src/main/java/org/gradle/process/internal/daemon/DefaultWorkerDaemonAdapter.java:108-115 | the one-subject transform call returns the subject's result, or raises a multi-cause exception with that one cause; the null returned for an empty list is never reached |
| DaemonAdapter.DefaultWorkerDaemonAdapter.ToDaemonOptions | subprojects/core/src/main/java/org/gradle/process/internal/daemon/DefaultWorkerDaemonAdapter.java:126-154 | building the options entry by entry yields exactly `DaemonOptionsFor` |
| DaemonAdapter.DefaultWorkerDaemonAdapter.ExecuteAction | subprojects/core/src/main/java/org/gradle/process/internal/daemon/DefaultWorkerDaemonAdapter.java:74-80 | one request to the daemon; when the envelope is not a success, its exception is thrown as `throwAsUncheckedException` makes it |
| DaemonAdapter.DefaultWorkerDaemonAdapter.ExecuteTransform | subprojects/core/src/main/java/org/gradle/process/internal/daemon/DefaultWorkerDaemonAdapter.java:117-124 | one request to the daemon; the answer is cast first; then, on failure, its exception is thrown as `throwAsUncheckedException` makes it, else its value is returned |
| DaemonAdapter.DefaultWorkerDaemonAdapter.ExecuteAllInDaemon | subprojects/core/src/main/java/org/gradle/process/internal/daemon/DefaultWorkerDaemonAdapter.java:48-67 | a null or empty batch asks the factory for nothing; otherwise exactly one daemon is requested, with options from the action class and the first subject's class, and every subject is sent to it, in order; the outcome is the batch specification |
| DaemonAdapter.DefaultWorkerDaemonAdapter.ExecuteInDaemon | subprojects/core/src/main/java/org/gradle/process/internal/daemon/DefaultWorkerDaemonAdapter.java:70-72 | exactly the batch call on `[subject]`: one daemon requested, one request sent |
| DaemonAdapter.DefaultWorkerDaemonAdapter.TransformAllInDaemon | subprojects/core/src/main/java/org/gradle/process/internal/daemon/DefaultWorkerDaemonAdapter.java:83-105 | the same orchestration as the action batch, with the results collected in order; the outcome is the batch specification |
| DaemonAdapter.DefaultWorkerDaemonAdapter.TransformInDaemon | subprojects/core/src/main/java/org/gradle/process/internal/daemon/DefaultWorkerDaemonAdapter.java:108-115 | the batch call on `[subject]`, then element 0, or null for an empty list |
| DaemonTask.WorkerDaemonTask.constructor | subprojects/core/src/main/java/org/gradle/api/tasks/WorkerDaemonTask.java:40-42 | a new task has the default fork options, and no shared packages or classpath |
| DaemonTask.WorkerDaemonTask.SetForkOptions | subprojects/core/src/main/java/org/gradle/api/tasks/WorkerDaemonTask.java:54-60 | the getter then returns the value set; the other fields are unchanged |
| DaemonTask.WorkerDaemonTask.SetSharedPackages | subprojects/core/src/main/java/org/gradle/api/tasks/WorkerDaemonTask.java:62-68 | the getter then returns the value set; the other fields are unchanged |
| DaemonTask.WorkerDaemonTask.SetClasspath | subprojects/core/src/main/java/org/gradle/api/tasks/WorkerDaemonTask.java:70-76 | the getter then returns the value set; the other fields are unchanged |
| DaemonTask.WorkerDaemonTask.GetDaemonOptions | subprojects/core/src/main/java/org/gradle/api/tasks/WorkerDaemonTask.java:104-132 | building from the task's fields yields `DaemonOptionsFor` of those fields: the same classpath order, the same package order, and heap bounds and JVM args from `forkOptions` |
| DaemonTask.WorkerDaemonTask.ExecuteAllActionsInDaemon | subprojects/core/src/main/java/org/gradle/api/tasks/WorkerDaemonTask.java:78-84 | no adapter call exactly when the batch is null or empty; otherwise one call with options from the action's class and the first subject's class |
| DaemonTask.WorkerDaemonTask.ExecuteActionInDaemon | subprojects/core/src/main/java/org/gradle/api/tasks/WorkerDaemonTask.java:86-88 | one adapter call with options from the action's class and that subject's class |
| DaemonTask.WorkerDaemonTask.ExecuteAllTransformsInDaemon | subprojects/core/src/main/java/org/gradle/api/tasks/WorkerDaemonTask.java:90-98 | a fresh empty list, with no adapter call, exactly when the batch is null or empty; otherwise the result of one call with options from the transformer's class and the first subject's class |
| DaemonTask.WorkerDaemonTask.ExecuteTransformInDaemon | subprojects/core/src/main/java/org/gradle/api/tasks/WorkerDaemonTask.java:100-102 | one adapter call with options from the transformer's class and that subject's class |
| DaemonTask.BatchOptionsFromFirstSubjectOnly | subprojects/core/src/main/java/org/gradle/api/tasks/WorkerDaemonTask.java:80-94 | batches whose first subjects share a class get the same options, whatever the other subjects are |
| DaemonTask.OneElementBatchVersusSingleCall | subprojects/core/src/main/java/org/gradle/api/tasks/WorkerDaemonTask.java:78-88 | a one-subject batch and the single-subject forward ask for the same options; the batch passes the list where the single call passes the subject |
| RunnableBuilder.ParamSpec.GetParams | subprojects/core/src/main/java/org/gradle/process/internal/daemon/WorkerDaemonRunnableBuilder.java:53-63 | returns exactly the parameters the spec was built with |
| RunnableBuilder.WrappedDaemonRunnable.Execute | subprojects/core/src/main/java/org/gradle/process/internal/daemon/WorkerDaemonRunnableBuilder.java:72-81 | never throws; a failure to instantiate and a failure of `run()` both give an envelope holding that throwable; success gives a null exception; `didWork` is true |
| RunnableBuilder.RunnableRoundTrip | subprojects/core/src/main/java/org/gradle/process/internal/daemon/WorkerDaemonRunnableBuilder.java:73-81 | reading the wrapper's envelope gives what running the runnable locally would give |
| RunnableBuilder.ParamTypes | subprojects/core/src/main/java/org/gradle/process/internal/daemon/WorkerDaemonRunnableBuilder.java:36-41 | one entry per parameter, in the same order, each that parameter's runtime class |
| RunnableBuilder.WorkerDaemonRunnableBuilder.Build | subprojects/core/src/main/java/org/gradle/process/internal/daemon/WorkerDaemonRunnableBuilder.java:33-43 | the spec holds exactly the configured parameters and the wrapper names the implementation class; the options are computed once, from the parameter types; no daemon is acquired |
| RunnableBuilder.WorkerDaemonRunnableBuilder.Run | subprojects/core/src/main/java/org/gradle/process/internal/daemon/WorkerDaemonRunnableBuilder.java:44-50 | one daemon request for the builder's working dir and the precomputed options, and exactly one execution with the precomputed spec; the result is discarded, so the call never raises |
| ArtifactIdentifiers.New | subprojects/dependency-management/src/main/java/org/gradle/internal/component/local/model/OpaqueComponentArtifactIdentifier.java:25-27 | `getDisplayName()` and `toString()` of a new identifier both return the constructor's display name |
| ArtifactIdentifiers.OpaqueComponentArtifactIdentifier.ToString | subprojects/dependency-management/src/main/java/org/gradle/internal/component/local/model/OpaqueComponentArtifactIdentifier.java:34-42 | `toString()` equals `getDisplayName()` |
| ArtifactIdentifiers.OpaqueComponentArtifactIdentifier.GetComponentIdentifier | subprojects/dependency-management/src/main/java/org/gradle/internal/component/local/model/OpaqueComponentArtifactIdentifier.java:29-32 | the component identifier carries the same display name |
| ArtifactIdentifiers.OpaqueComponentArtifactIdentifier.Equals | subprojects/dependency-management/src/main/java/org/gradle/internal/component/local/model/OpaqueComponentArtifactIdentifier.java:44-54 | true if and only if the argument is an identifier of the same runtime class with the same display name |
| ArtifactIdentifiers.OpaqueComponentArtifactIdentifier.HashCode | subprojects/dependency-management/src/main/java/org/gradle/internal/component/local/model/OpaqueComponentArtifactIdentifier.java:56-59 | the display name's `String.hashCode`, a signed 32-bit value |
| ArtifactIdentifiers.StringHashCode | subprojects/dependency-management/src/main/java/org/gradle/internal/component/local/model/OpaqueComponentArtifactIdentifier.java:58 | the hash is in the signed 32-bit range and is the mod-2^32 fold `31 * h + c` read as two's complement |
| ArtifactIdentifiers.EqualsReflexive | subprojects/dependency-management/src/main/java/org/gradle/internal/component/local/model/OpaqueComponentArtifactIdentifier.java:46-48 | every identifier equals itself |
| ArtifactIdentifiers.EqualsNullOrForeign | subprojects/dependency-management/src/main/java/org/gradle/internal/component/local/model/OpaqueComponentArtifactIdentifier.java:49-51 | `equals` is false for null and for an object of another class |
| ArtifactIdentifiers.NewEqualsIffSameName | subprojects/dependency-management/src/main/java/org/gradle/internal/component/local/model/OpaqueComponentArtifactIdentifier.java:52-53 | two constructed identifiers are equal if and only if their display names are equal |
| ArtifactIdentifiers.EqualsSymmetric | subprojects/dependency-management/src/main/java/org/gradle/internal/component/local/model/OpaqueComponentArtifactIdentifier.java:44-54 | `equals` is symmetric |
| ArtifactIdentifiers.EqualsTransitive | subprojects/dependency-management/src/main/java/org/gradle/internal/component/local/model/OpaqueComponentArtifactIdentifier.java:44-54 | `equals` is transitive |
| ArtifactIdentifiers.EqualsImpliesSameHashCode | subprojects/dependency-management/src/main/java/org/gradle/internal/component/local/model/OpaqueComponentArtifactIdentifier.java:56-59 | equal identifiers have equal hash codes |
| ArtifactIdentifiers.EqualsImpliesSameComponent | subprojects/dependency-management/src/main/java/org/gradle/internal/component/local/model/OpaqueComponentArtifactIdentifier.java:29-32 | equal identifiers yield equal component identifiers |

## Left out

- The `WorkerDaemonAdapter` interface (subprojects/core/src/main/java/org/gradle/process/daemon/WorkerDaemonAdapter.java) has no logic. Its doc comments (lines 29, 39, 49, 59) say a call throws if any action fails, which the batch contracts state. Its signatures belong to a different version of the adapter and are not modelled.
- WorkerDaemons.WorkerDaemonFactory.GetDaemon: the daemon pool is not modelled. Every call hands out a new daemon, so reuse of an idle daemon and the matching of options against running daemons are not captured. Process start-up and shutdown are out of scope.
- WorkerDaemons.WorkerDaemon.Execute: serialisation across the process boundary is not modelled, and neither is a transport failure inside `daemon.execute` itself. The daemon always answers through its oracle.
- `UncheckedException.throwAsUncheckedException` (DefaultWorkerDaemonAdapter.java:78,121) is not part of this model. It is a given function, `throwAsUnchecked`, of the adapter. Which throwables it passes through unchanged and which it wraps is therefore not spelled out. Every cause the adapter records, and every round-trip, is stated through that function.
- Null subjects, build parameters and display names are not modelled: `JavaObject` and `string` values are never null. This affects the following members.
  - DaemonAdapter.DefaultWorkerDaemonAdapter.ExecuteAllInDaemon, DaemonAdapter.DefaultWorkerDaemonAdapter.TransformAllInDaemon, DaemonAdapter.DefaultWorkerDaemonAdapter.ExecuteInDaemon and DaemonAdapter.DefaultWorkerDaemonAdapter.TransformInDaemon: a null first subject throws `NullPointerException` at `getClass()` before any daemon is requested (DefaultWorkerDaemonAdapter.java:51,87). A null later subject is sent on as `SubjectSpec(null)`. Neither case is captured.
  - DaemonTask.WorkerDaemonTask.ExecuteAllActionsInDaemon, DaemonTask.WorkerDaemonTask.ExecuteActionInDaemon, DaemonTask.WorkerDaemonTask.ExecuteAllTransformsInDaemon and DaemonTask.WorkerDaemonTask.ExecuteTransformInDaemon: the same `NullPointerException` for a null (first) subject (WorkerDaemonTask.java:82,87,94,101) is not captured.
  - RunnableBuilder.ParamTypes and RunnableBuilder.WorkerDaemonRunnableBuilder.Build: a null parameter throws `NullPointerException` at `o.getClass()` (WorkerDaemonRunnableBuilder.java:39), and this is not captured.
  - ArtifactIdentifiers.OpaqueComponentArtifactIdentifier.Equals, ArtifactIdentifiers.OpaqueComponentArtifactIdentifier.HashCode and ArtifactIdentifiers.OpaqueComponentArtifactIdentifier.ToString: with a null display name, `equals` and `hashCode` throw and `toString` returns null (OpaqueComponentArtifactIdentifier.java:41,53,58). These cases are not captured.
- Concurrency and exclusive use of a daemon by one batch: there is no such code in these files.
- The `@Inject` getters that throw `UnsupportedOperationException` (`getInstantiator`, `getFileResolver`, `getWorkerDaemonAdapter`) are dependency-injection stubs, not behaviour.
- Gradle task infrastructure (`DefaultTask`, `getProject().getProjectDir()`, `FileResolver`, `DefaultJavaForkOptions`): the project directory and the default fork options are constructor parameters. `FileCollection.getFiles()` is a given sequence, with its order as given.
- DaemonTask.WorkerDaemonTask.ExecuteAllTransformsInDaemon: the value the adapter returns to the task is not modelled. The model records the call that the task makes, because the adapter it calls is a different version of the adapter.
- RunnableBuilder.WorkerDaemonRunnableBuilder.Build: `AbstractWorkerDaemonBuilder.toDaemonOptions` is not part of this model. It is a given function of the implementation class, the parameter types, the fork options, the classpath and the shared packages.
- Reflection (`Class.newInstance`, `DirectInstantiator.instantiate`, `getClassLoader()`, `getPackage()`, `ClasspathUtil.getClasspathForClass`) is uninterpreted functions, as described above. A failure inside these functions on the caller's side is not modelled.
- ArtifactIdentifiers.StringHashCode: a Dafny `char` is a Unicode scalar value, and the model folds one step per `char`. Java folds one step per UTF-16 code unit. The two agree on the Basic Multilingual Plane. For a character outside it, Java hashes two surrogate units where the model hashes one scalar value.
- ArtifactIdentifiers.OpaqueComponentArtifactIdentifier.GetComponentIdentifier: identifiers are values in the model, so "a new object on each call" is not observable. Only "built from the same display name" is stated.
- Reference identity in `equals` (`obj == this`) is modelled as value equality. This is sound because two references to one object hold the same fields.

/**
 * Java runtime notions shared by the worker-daemon model: nullable values,
 * thrown exceptions, classes and what reflection reports about them.
 *
 * Reflection (`getClassLoader()`, `getPackage()`, the classpath location of a
 * class) is not computed here: a `ClassModel` value carries those facts as
 * uninterpreted functions, so every property proved holds for every JVM.
 */
module Jvm {

  /** A Java reference that may be `null`. */
  datatype Option<+T> = None | Some(value: T)

  /** A `java.lang.Class`, identified by its fully qualified name. */
  type ClassName = string

  /** A `java.io.File`. */
  datatype File = File(path: string)

  /** Name of the `org.gradle.api.Action` interface. */
  const ActionInterface: ClassName := "org.gradle.api.Action"

  /** Name of the exception a failed reference cast raises. */
  const ClassCastException: ClassName := "java.lang.ClassCastException"

  /**
   * A Java throwable. `MultiCauseException` is a `DefaultMultiCauseException`:
   * a message plus the ordered list of causes it was built from.
   */
  datatype Throwable =
    | Exception(cls: ClassName, message: string)
    | MultiCauseException(message: string, causes: seq<Throwable>)

  /**
   * How a Java call ended: it returned a value, or it threw.
   * A `void` call returns `()`.
   */
  datatype Outcome<+V> = Returned(value: V) | Threw(cause: Throwable)

  /** A non-null object handed across the daemon boundary: its runtime class and its state. */
  datatype JavaObject<+V> = JavaObject(cls: ClassName, state: V)

  /**
   * What reflection reports about classes in the JVM the caller runs in:
   * `ClasspathUtil.getClasspathForClass(c)`, `c.getPackage()` (absent for
   * some classes, hence the option) and whether `c.getClassLoader()` is non-null
   * (it is null for classes of the bootstrap loader).
   */
  datatype ClassModel = ClassModel(
    classpathForClass: ClassName -> File,
    packageName: ClassName -> Option<string>,
    hasClassLoader: ClassName -> bool)

  /**
   * The `JavaForkOptions` fields the daemon options are derived from.
   * `allJvmArgs` is what `getAllJvmArgs()` returns, taken as given.
   */
  datatype JavaForkOptions = JavaForkOptions(
    workingDir: File,
    minHeapSize: Option<string>,
    maxHeapSize: Option<string>,
    allJvmArgs: seq<string>)

  /** An `Iterable` that may be null: null reads as empty. */
  function OrEmpty<T>(xs: Option<seq<T>>): (r: seq<T>)
    ensures xs.None? ==> r == []
    ensures xs.Some? ==> r == xs.value
  {
    match xs
    case None => []
    case Some(s) => s
  }

  /** An option with at most one element, as a sequence. */
  function ToSeq<T>(o: Option<T>): (r: seq<T>)
    ensures |r| <= 1
    ensures o.Some? <==> |r| == 1
    ensures o.Some? ==> r[0] == o.value
  {
    match o
    case None => []
    case Some(v) => [v]
  }
}

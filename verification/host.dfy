/** The managed (Java) side of the bridge: the records it passes in and receives. */
module Host {
  import Engine

  /**
   * The Java `ImageClassifierOptions` as its getters expose it. The
   * threshold value is only meaningful when `isScoreThresholdSet` holds.
   */
  datatype ImageClassifierOptions = ImageClassifierOptions(
    displayNamesLocale: string,
    maxResults: Engine.int32,
    isScoreThresholdSet: bool,
    scoreThreshold: Engine.Float,
    classNameAllowList: seq<string>,
    classNameDenyList: seq<string>)

  /** The Java `Category`: a label (`labelText`, as `label` is reserved in Dafny) and a score. */
  datatype Category = Category(labelText: string, score: Engine.Float)

  /** The Java `Classifications`: the categories of one head and its index. */
  datatype Classifications = Classifications(categories: seq<Category>, headIndex: Engine.int32)

  /** The Java exception classes this bridge raises. */
  datatype ExceptionClass = AssertionError

  /** A pending Java exception, as `ThrowException` leaves it in the JNI environment. */
  datatype Throwable = Throwable(exceptionClass: ExceptionClass, message: string)
}

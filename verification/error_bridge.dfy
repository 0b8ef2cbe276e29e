/**
 * The error bridge: an engine failure becomes a pending Java
 * `AssertionError` whose message is a fixed prefix followed by the
 * engine's message, formatted with `%s` (so read up to its first NUL).
 */
module ErrorBridge {
  import opened Wrappers
  import opened CStrings
  import Engine
  import Host

  const InitErrorPrefix: string := "Error occurred when initializing ImageClassifier: "
  const ClassifyErrorPrefix: string := "Error occurred when classifying the image: "

  /** `ThrowException(env, kAssertionError, "<prefix>%s", status.message().data())`. */
  function ThrowAssertionError(prefix: string, status: Engine.Status): Host.Throwable {
    Host.Throwable(Host.AssertionError, prefix + CString(status.message))
  }

  /** The exception raised when creating the classifier fails. */
  function InitError(status: Engine.Status): (e: Host.Throwable)
    ensures e.exceptionClass == Host.AssertionError
    ensures EngineMessage(e) == Some(CString(status.message))
  {
    ThrowAssertionError(InitErrorPrefix, status)
  }

  /** The exception raised when classifying an image fails. */
  function ClassifyError(status: Engine.Status): (e: Host.Throwable)
    ensures e.exceptionClass == Host.AssertionError
    ensures EngineMessage(e) == Some(CString(status.message))
  {
    var e := ThrowAssertionError(ClassifyErrorPrefix, status);
    assert e.message[20] == 'c' != InitErrorPrefix[20];
    e
  }

  /**
   * What a host-side reader can recover from a bridged exception: the
   * engine's message after either prefix, or nothing for other messages.
   */
  function EngineMessage(e: Host.Throwable): Option<string> {
    if InitErrorPrefix <= e.message then Some(e.message[|InitErrorPrefix|..])
    else if ClassifyErrorPrefix <= e.message then Some(e.message[|ClassifyErrorPrefix|..])
    else None
  }

  /** The engine's message comes through verbatim when it holds no NUL character. */
  lemma EngineMessageRoundTrip(status: Engine.Status)
    requires '\0' !in status.message
    ensures EngineMessage(InitError(status)) == Some(status.message)
    ensures EngineMessage(ClassifyError(status)) == Some(status.message)
  {
  }

  /** The message always tells which of the two operations failed. */
  lemma FailureStageDistinguishable(initStatus: Engine.Status, classifyStatus: Engine.Status)
    ensures InitErrorPrefix <= InitError(initStatus).message
    ensures !(ClassifyErrorPrefix <= InitError(initStatus).message)
    ensures ClassifyErrorPrefix <= ClassifyError(classifyStatus).message
    ensures !(InitErrorPrefix <= ClassifyError(classifyStatus).message)
  {
    var m1, m2 := InitError(initStatus).message, ClassifyError(classifyStatus).message;
    assert m1[20] == 'i' && ClassifyErrorPrefix[20] == 'c';
    assert m2[20] == 'c' && InitErrorPrefix[20] == 'i';
  }
}

# Image classifier JNI bridge — a Dafny model

This project models the native bridge that lets the Java `ImageClassifier`
of TensorFlow Lite Support drive the native image classifier
(`image_classifier_jni.cc`). The bridge does four things, and each is a
module here:

- **Option translation** (`OptionTranslator`): the Java
  `ImageClassifierOptions` become the engine's options message. Locale and
  max-results are copied. The score threshold is written only when the Java
  side flagged it as set, so on the engine side it is an `Option`. The
  allow-list and deny-list become the whitelist and blacklist, in order.
- **Result marshalling** (`ResultMarshaler`): the engine's
  `ClassificationResult` becomes a list of Java `Classifications`, one per
  output head, in order, each with that head's index and one `Category` per
  engine class, in order, with the score copied. The label is the display
  name when that is non-empty, otherwise the class name.
- **Handle lifecycle** (`ImageClassifierJni.NativeHeap`): the raw pointer
  handed to Java is a handle into a registry of live instances. A
  successful create makes a fresh handle live. A failed create returns
  `kInvalidPointer` and creates nothing. `deinitJni` deletes the instance,
  so its handle is no longer live. `classifyNative` requires a live handle.
- **Error bridge** (`ErrorBridge`): an engine failure becomes a pending Java
  `AssertionError`. Its message is a fixed prefix followed by the engine's
  message. A failure yields the invalid pointer or no result, never a
  partial one.

The engine's `CreateFromOptions` and `Classify` are parameters of type
`Result`, so every engine outcome is covered. A pending Java exception is
returned as an `Option<Throwable>` value next to the ordinary result.

Two details come from C string handling in the code. A label crosses to
Java as `NewStringUTF(label.c_str())`. An engine message is formatted with
`%s` from `message().data()`. Both are read only up to their first NUL
character, and `CStrings.CString` models that cut. For text without NUL the
cut is the identity (`ResultMarshaler.LabelsSurviveWithoutNul`,
`ErrorBridge.EngineMessageRoundTrip`).

The creation error prefix is "Error occurred when initializing ImageClassifier: ",
as image_classifier_jni.cc:174 writes it.

## Model

| member | source | states |
|---|---|---|
| `OptionTranslator.ConvertToProtoOptions` | tensorflow_lite_support/java/src/native/task/vision/classifier/image_classifier_jni.cc:44-93 | building the options field by field, and the two lists name by name, yields exactly the translated configuration |
| `OptionTranslator.TranslatedOptionsFaithful` | tensorflow_lite_support/java/src/native/task/vision/classifier/image_classifier_jni.cc:51-90 | locale and max-results are copied verbatim; a threshold is present iff the host flag is set and then equals the host value; whitelist and blacklist equal the allow-list and deny-list in order; no model source is set yet |
| `OptionTranslator.UnsetThresholdIgnored` | tensorflow_lite_support/java/src/native/task/vision/classifier/image_classifier_jni.cc:64-74 | when the flag is unset, the host's threshold value has no effect on the translated options |
| `OptionTranslator.TranslationInjective` | tensorflow_lite_support/java/src/native/task/vision/classifier/image_classifier_jni.cc:44-93 | two configurations translate alike iff they agree on every field, and on the threshold whenever it is flagged: translation loses nothing else |
| `CStrings.CString` | tensorflow_lite_support/java/src/native/task/vision/classifier/image_classifier_jni.cc:132 | the text read from a C string is the longest NUL-free prefix of the string, and the whole string when it has no NUL |
| `ResultMarshaler.Label` | tensorflow_lite_support/java/src/native/task/vision/classifier/image_classifier_jni.cc:129-131 | the label is the display name when that is non-empty; it is always the class name or the display name; it is empty only when both are |
| `ResultMarshaler.ConvertToClassificationResults` | tensorflow_lite_support/java/src/native/task/vision/classifier/image_classifier_jni.cc:95-145 | one host record per engine head in the same order with its head index; per head, one category per class in the same order, carrying the chosen label as read back from a C string and the unchanged score |
| `ResultMarshaler.MarshalsToUnique` | tensorflow_lite_support/java/src/native/task/vision/classifier/image_classifier_jni.cc:118-143 | the marshalling relation admits exactly one output per result: nothing can be filtered, added or reordered |
| `ResultMarshaler.LabelsSurviveWithoutNul` | tensorflow_lite_support/java/src/native/task/vision/classifier/image_classifier_jni.cc:129-134 | when the chosen name has no NUL character, the host label equals it exactly and the score is the engine's |
| `ResultMarshaler.LabelExamples` | tensorflow_lite_support/java/src/native/task/vision/classifier/image_classifier_jni.cc:129-131 | class "cat" with an empty or unset display name is labelled "cat"; with display name "Felis" it is labelled "Felis" |
| `ErrorBridge.InitError` | tensorflow_lite_support/java/src/native/task/vision/classifier/image_classifier_jni.cc:173-175 | a creation failure raises an AssertionError from whose message the engine's message (up to a NUL) is recovered after the creation prefix |
| `ErrorBridge.ClassifyError` | tensorflow_lite_support/java/src/native/task/vision/classifier/image_classifier_jni.cc:193-195 | a classification failure raises an AssertionError from whose message the engine's message (up to a NUL) is recovered after the classification prefix |
| `ErrorBridge.EngineMessageRoundTrip` | tensorflow_lite_support/java/src/native/task/vision/classifier/image_classifier_jni.cc:173-175 | an engine message without NUL is recovered verbatim from either bridged exception |
| `ErrorBridge.FailureStageDistinguishable` | tensorflow_lite_support/java/src/native/task/vision/classifier/image_classifier_jni.cc:173-195 | a creation failure's message carries the creation prefix and not the classification one, and the other way round |
| `ImageClassifierJni.ModelOptionsRecordSource` | tensorflow_lite_support/java/src/native/task/vision/classifier/image_classifier_jni.cc:159-165 | the engine receives the translated options with fd, length and offset recorded in the file-descriptor meta, and nothing else changed |
| `ImageClassifierJni.NativeHeap.InitJniWithModelFdAndOptions` | tensorflow_lite_support/java/src/native/task/vision/classifier/image_classifier_jni.cc:154-178 | on engine success a fresh, valid handle maps to the created instance and nothing is raised; on failure the invalid pointer is returned, no instance is created, the registry is unchanged, and the creation AssertionError is pending |
| `ImageClassifierJni.NativeHeap.DeinitJni` | tensorflow_lite_support/java/src/native/task/vision/classifier/image_classifier_jni.cc:147-152 | the released handle is no longer live and every other live instance stays; deleting the invalid (null) pointer is a no-op |
| `ImageClassifierJni.NativeHeap.ClassifyNative` | tensorflow_lite_support/java/src/native/task/vision/classifier/image_classifier_jni.cc:180-198 | only a live handle may be used; on engine success the results are the marshalled engine result and nothing is raised; on failure there is no result and the classification AssertionError is pending |
| `ImageClassifierJni.Lifecycle` | tensorflow_lite_support/java/src/native/task/vision/classifier/image_classifier_jni.cc:147-197 | a client run of two creates, classify and releases: a handle is live after a successful create, stays live while another handle is created and released, and is not live after its own release, so a later classify is refused by its precondition |

## Left out

- JNI reflection and object construction (`FindClass`, `GetMethodID`, `CallObjectMethod`, `NewObject`, `DeleteLocalRef`, `GetStringUTFChars`): host records are plain datatypes passed by value.
- Character encodings: Java strings and the modified UTF-8 that crosses JNI are both `seq<char>`; only the NUL cut is modelled.
- `StringListToVector`, `GetMappedFileBuffer` and `ThrowException` live in `jni_utils`, which is not part of this model: a list is a `seq`, a direct buffer is its bytes, and a raised exception is a returned `Throwable`.
- ErrorBridge.ThrowAssertionError: any length limit that `ThrowException` applies while formatting is not modelled, because its source is not part of this model.
- `kInvalidPointer` is taken to be 0, the null pointer; its definition in `jni_utils` is not part of this model.
- `ImageClassifier::CreateFromOptions`, `Classify` and model loading or memory-mapping: the engine is an opaque success-or-failure function parameter.
- `CreateFromRgbRawBuffer` and frame layout: the frame is the buffer with its width and height; the bridge validates no length or dimension, so none is modelled.
- Floating-point semantics of scores and thresholds: they are only copied, so they are reals.
- Pointer encoding and memory: handles are unbounded integers issued by a counter, so address reuse after `delete` and allocation failure are not modelled.
- Concurrency: the bridge does no locking; concurrent classify and release are not modelled.

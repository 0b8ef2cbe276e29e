/**
 * The three entry points the host calls: create a classifier from options
 * and a model file descriptor, classify an image with it, and release it.
 * The raw pointer the native code hands to the host is modelled as a
 * handle into a registry of live classifier instances.
 */
module ImageClassifierJni {
  import opened Wrappers
  import Engine
  import Host
  import OptionTranslator
  import ResultMarshaler
  import ErrorBridge

  /** The `jlong` the host keeps for a native classifier. */
  type Handle = int

  /** `kInvalidPointer`: the null pointer, never the handle of a live instance. */
  const InvalidPointer: Handle := 0

  /** The engine's `ImageClassifier::CreateFromOptions`. */
  type CreateFromOptions = Engine.ImageClassifierOptions -> Result<Engine.ImageClassifier, Engine.Status>

  /** The engine's `ImageClassifier::Classify` on one instance and one frame. */
  type Classify = (Engine.ImageClassifier, Engine.FrameView) -> Result<Engine.ClassificationResult, Engine.Status>

  /** The options handed to the engine: the translated configuration plus the model's location. */
  function ModelOptions(javaOptions: Host.ImageClassifierOptions, fileDescriptor: Engine.int32,
                        fileDescriptorLength: Engine.int64, fileDescriptorOffset: Engine.int64)
    : Engine.ImageClassifierOptions
  {
    OptionTranslator.Translated(javaOptions).(fileDescriptorMeta :=
      Some(Engine.FileDescriptorMeta(fileDescriptor, fileDescriptorLength, fileDescriptorOffset)))
  }

  /** The model file location is recorded and the configuration otherwise passes through untouched. */
  lemma ModelOptionsRecordSource(javaOptions: Host.ImageClassifierOptions, fileDescriptor: Engine.int32,
                                 fileDescriptorLength: Engine.int64, fileDescriptorOffset: Engine.int64)
    ensures var p := ModelOptions(javaOptions, fileDescriptor, fileDescriptorLength, fileDescriptorOffset);
      && p.fileDescriptorMeta == Some(Engine.FileDescriptorMeta(fileDescriptor, fileDescriptorLength, fileDescriptorOffset))
      && p.(fileDescriptorMeta := None) == OptionTranslator.Translated(javaOptions)
  {
  }

  /**
   * The native heap as the bridge uses it: the classifier instances it has
   * created and not yet deleted, by handle.
   */
  class NativeHeap {
    var live: map<Handle, Engine.ImageClassifier>
    var nextAddress: Handle

    /** Live handles are distinct from the invalid pointer and from every address not yet issued. */
    ghost predicate Valid()
      reads this
    {
      0 < nextAddress && forall h :: h in live ==> InvalidPointer < h < nextAddress
    }

    constructor ()
      ensures Valid() && live == map[]
    {
      live := map[];
      nextAddress := 1;
    }

    /**
     * `initJniWithModelFdAndOptions`: on engine success the new instance
     * is live under a fresh handle; on failure no instance is created, the
     * invalid pointer is returned and an `AssertionError` is pending.
     */
    method InitJniWithModelFdAndOptions(fileDescriptor: Engine.int32, fileDescriptorLength: Engine.int64,
                                        fileDescriptorOffset: Engine.int64, javaOptions: Host.ImageClassifierOptions,
                                        createFromOptions: CreateFromOptions)
      returns (handle: Handle, thrown: Option<Host.Throwable>)
      requires Valid()
      modifies this
      ensures Valid()
      ensures var created := createFromOptions(ModelOptions(javaOptions, fileDescriptor, fileDescriptorLength, fileDescriptorOffset));
        && (handle in live <==> created.Ok?)
        && (thrown.None? <==> created.Ok?)
        && match created
           case Ok(classifier) =>
             handle != InvalidPointer && handle !in old(live) && live == old(live)[handle := classifier]
           case Err(status) =>
             handle == InvalidPointer && live == old(live) && thrown == Some(ErrorBridge.InitError(status))
    {
      var protoOptions := OptionTranslator.ConvertToProtoOptions(javaOptions);
      protoOptions := protoOptions.(fileDescriptorMeta :=
        Some(Engine.FileDescriptorMeta(fileDescriptor, fileDescriptorLength, fileDescriptorOffset)));
      var imageClassifierOr := createFromOptions(protoOptions);
      if imageClassifierOr.Ok? {
        handle := nextAddress;
        nextAddress := nextAddress + 1;
        live := live[handle := imageClassifierOr.value];
        thrown := None;
      } else {
        thrown := Some(ErrorBridge.InitError(imageClassifierOr.error));
        handle := InvalidPointer;
      }
    }

    /**
     * `deinitJni`: deletes the instance, after which its handle is no longer
     * live and may not be classified with. Deleting the invalid (null)
     * pointer does nothing.
     */
    method DeinitJni(nativeHandle: Handle)
      requires Valid()
      requires nativeHandle in live || nativeHandle == InvalidPointer
      modifies this
      ensures Valid()
      ensures nativeHandle !in live
      ensures live == old(live) - {nativeHandle}
    {
      live := live - {nativeHandle};
    }

    /**
     * `classifyNative`: runs the engine on an RGB view of the buffer. On
     * success the marshalled results are returned and nothing is raised; on
     * failure nothing is returned and an `AssertionError` is pending.
     */
    method ClassifyNative(nativeHandle: Handle, imageByteBuffer: seq<bv8>, width: Engine.int32,
                          height: Engine.int32, classify: Classify)
      returns (results: Option<seq<Host.Classifications>>, thrown: Option<Host.Throwable>)
      requires nativeHandle in live
      ensures results.Some? <==> thrown.None?
      ensures match classify(live[nativeHandle], Engine.CreateFromRgbRawBuffer(imageByteBuffer, width, height))
        case Ok(r) => results.Some? && ResultMarshaler.MarshalsTo(r, results.value)
        case Err(status) => thrown == Some(ErrorBridge.ClassifyError(status))
    {
      var classifier := live[nativeHandle];
      var frameBuffer := Engine.CreateFromRgbRawBuffer(imageByteBuffer, width, height);
      var resultsOr := classify(classifier, frameBuffer);
      if resultsOr.Ok? {
        var classificationsList := ResultMarshaler.ConvertToClassificationResults(resultsOr.value);
        results, thrown := Some(classificationsList), None;
      } else {
        thrown := Some(ErrorBridge.ClassifyError(resultsOr.error));
        results := None;
      }
    }
  }

  /**
   * A handle is usable for classification from a successful creation until
   * its release: creation makes it live, other handles' creation and
   * release leave it live, and its own release ends it.
   */
  method Lifecycle(heap: NativeHeap, javaOptions: Host.ImageClassifierOptions, createFromOptions: CreateFromOptions,
                   image: seq<bv8>, classify: Classify)
    requires heap.Valid()
    requires createFromOptions(ModelOptions(javaOptions, 3, 1000, 0)).Ok?
    modifies heap
    ensures heap.Valid()
  {
    var handle, thrown := heap.InitJniWithModelFdAndOptions(3, 1000, 0, javaOptions, createFromOptions);
    assert handle in heap.live && thrown.None?;
    var other, otherThrown := heap.InitJniWithModelFdAndOptions(3, 1000, 0, javaOptions, createFromOptions);
    assert other in heap.live && other != handle;
    heap.DeinitJni(other);
    assert handle in heap.live && other !in heap.live;
    var results, classifyThrown := heap.ClassifyNative(handle, image, 2, 2, classify);
    heap.DeinitJni(handle);
    assert handle !in heap.live;
  }
}

/**
 * The native side of the bridge: the engine's option and result messages,
 * its status type and the image view it consumes. The engine itself
 * (creating a classifier, running inference) is an opaque collaborator;
 * only the shapes of what crosses into and out of it are modelled here.
 */
module Engine {
  import opened Wrappers

  /** A 32-bit signed integer, the width of a `jint` and of a proto `int32`. */
  newtype int32 = x: int | -0x8000_0000 <= x < 0x8000_0000

  /** A 64-bit signed integer, the width of a `jlong` and of a proto `int64`. */
  newtype int64 = x: int | -0x8000_0000_0000_0000 <= x < 0x8000_0000_0000_0000

  /**
   * A single-precision score or threshold. The bridge only copies such
   * values and never computes with them, so a real stands for them.
   */
  type Float = real

  /** Where the model lives: a sub-range of an open file descriptor. */
  datatype FileDescriptorMeta = FileDescriptorMeta(fd: int32, length: int64, offset: int64)

  /** The engine's options message (`ImageClassifierOptions` proto). */
  datatype ImageClassifierOptions = ImageClassifierOptions(
    displayNamesLocale: string,
    maxResults: int32,
    scoreThreshold: Option<Float>,       // unset unless explicitly written
    classNameWhitelist: seq<string>,
    classNameBlacklist: seq<string>,
    fileDescriptorMeta: Option<FileDescriptorMeta>)

  /** A freshly constructed options message: no threshold, empty lists, no model source. */
  const EmptyOptions := ImageClassifierOptions("", 0, None, [], [], None)

  /** One scored class of one output head (`Class` proto). */
  datatype Class = Class(className: string, displayName: Option<string>, score: Float) {
    /** The proto accessor `display_name()`: the empty string when the field is unset. */
    function DisplayName(): string {
      displayName.GetOr("")
    }
  }

  /** The classes of one output head, in the engine's order (`Classifications` proto). */
  datatype Classifications = Classifications(classes: seq<Class>, headIndex: int32)

  /** Everything one inference returns, one entry per output head (`ClassificationResult` proto). */
  datatype ClassificationResult = ClassificationResult(classifications: seq<Classifications>)

  /** The message an engine failure carries (`absl::Status`). */
  datatype Status = Status(message: string)

  /** An opaque token for one heap-resident engine classifier instance. */
  datatype ImageClassifier = ImageClassifier(instance: nat)

  /** A borrowed, non-owning RGB view of a caller's pixel buffer. */
  datatype FrameView = FrameView(pixels: seq<bv8>, width: int32, height: int32)

  /**
   * `CreateFromRgbRawBuffer`: wraps the bytes as an RGB frame of the given
   * dimensions. Nothing is checked here; the engine validates downstream.
   */
  function CreateFromRgbRawBuffer(pixels: seq<bv8>, width: int32, height: int32): FrameView {
    FrameView(pixels, width, height)
  }
}

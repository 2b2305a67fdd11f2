/** Value types shared by the filter chain, the channel mixers and the FLAC decoder. */
module AudioTypes {

  /** A value that may be absent; `None` stands for a null pointer in the C++ code. */
  datatype Option<+T> = None | Some(value: T)

  /** The four fields a decoder or an output device describes its samples with. */
  datatype AudioFormat = AudioFormat(bytesPerChannel: nat, channels: nat, freq: nat, isSigned: bool)

  /**
   * A buffer of decoded samples. `data` holds the typed sample elements (one per channel
   * per frame), `byteLength` the size of the storage in bytes, which a clone may enlarge
   * beyond what the samples occupy.
   */
  datatype AudioBuffer = AudioBuffer(
    bytesPerChannel: nat,
    channels: nat,
    samples: nat,
    byteLength: nat,
    data: seq<int>)

  /** A default-constructed buffer: no samples, no storage. */
  const EmptyBuffer: AudioBuffer := AudioBuffer(0, 0, 0, 0, [])

  /** A buffer without samples is the end-of-stream sentinel every consumer checks for. */
  predicate IsEmpty(b: AudioBuffer)
  {
    b.samples == 0
  }

  /**
   * Slot of the first channel of frame `frame` in a frame-major (interleaved) sample
   * array with `channels` samples per frame.
   */
  function FrameStart(channels: nat, frame: nat): nat
  {
    channels * frame
  }

  /** Bytes a freshly allocated buffer of this shape occupies. */
  function FrameBytes(bytesPerChannel: nat, channels: nat, samples: nat): nat
  {
    bytesPerChannel * channels * samples
  }

  /**
   * A buffer holding the same samples whose storage is at least `minimum` bytes long;
   * the storage is kept when it is already large enough.
   */
  function CloneWithMinimumByteLength(b: AudioBuffer, minimum: nat): (r: AudioBuffer)
    ensures r.byteLength >= minimum && r.byteLength >= b.byteLength
    ensures r.byteLength == minimum || r.byteLength == b.byteLength
    ensures r.samples == b.samples && r.channels == b.channels && r.data == b.data
    ensures r.bytesPerChannel == b.bytesPerChannel
  {
    if b.byteLength >= minimum then b else b.(byteLength := minimum)
  }
}

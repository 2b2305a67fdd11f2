/**
 * The FLAC decoder's own logic around libFLAC: the name table for initialisation
 * statuses, the copy of a decoded frame's per-channel arrays into one interleaved
 * buffer, the table choosing the sample type for that copy, and the queue of decoded
 * buffers between the write callback and `read_more_internal`. libFLAC itself is a
 * stand-in: the frames `process_single` will meet, in order, and a function giving
 * the outcome of `seek_absolute`.
 */
module FlacDecoding {
  import opened AudioTypes

  /** The initialisation statuses `to_string` names; any other value is `Unrecognised`. */
  datatype InitStatus =
    | Ok
    | UnsupportedContainer
    | InvalidCallbacks
    | MemoryAllocationError
    | ErrorOpeningFile
    | AlreadyInitialized
    | Unrecognised(code: int)

  /** `to_string`: every status has a name; only the unlisted ones share "unknown error". */
  function ToString(s: InitStatus): (r: string)
    ensures r == "unknown error" <==> s.Unrecognised?
    ensures |r| > 0
  {
    match s
    case Ok => "OK"
    case UnsupportedContainer => "UNSUPPORTED_CONTAINER"
    case InvalidCallbacks => "INVALID_CALLBACKS"
    case MemoryAllocationError => "MEMORY_ALLOCATION_ERROR"
    case ErrorOpeningFile => "ERROR_OPENING_FILE"
    case AlreadyInitialized => "ALREADY_INITIALIZED"
    case Unrecognised(_) => "unknown error"
  }

  /** Two listed statuses never share a name, so the name identifies the status. */
  lemma ToStringDistinguishesListed(a: InitStatus, b: InitStatus)
    requires !a.Unrecognised? && !b.Unrecognised? && a != b
    ensures ToString(a) != ToString(b)
  {
  }

  /** The sample element types `copy_to_new_buffer` is instantiated with. */
  datatype SampleType = Sint8 | Sint16 | Sint32

  /** `sizeof(SampleT)`. */
  function SizeOf(t: SampleType): nat
  {
    match t
    case Sint8 => 1
    case Sint16 => 2
    case Sint32 => 4
  }

  /** 2 to the number of bits of the sample type. */
  function SampleModulus(t: SampleType): nat
  {
    match t
    case Sint8 => 0x100
    case Sint16 => 0x1_0000
    case Sint32 => 0x1_0000_0000
  }

  /** The value range of the sample type. */
  predicate Fits(x: int, t: SampleType)
  {
    -(SampleModulus(t) / 2) <= x < SampleModulus(t) / 2
  }

  /**
   * Storing a 32-bit libFLAC sample into `SampleT`: two's-complement wrap-around to the
   * type's width, which leaves a value of that range unchanged.
   */
  function Narrow(x: int, t: SampleType): (r: int)
    ensures Fits(r, t)
    ensures Fits(x, t) ==> r == x
    ensures (x - r) % SampleModulus(t) == 0
  {
    var m := SampleModulus(t);
    var h := m / 2;
    (x + h) % m - h
  }

  /**
   * `allocator_functions`, indexed by bytes per sample (`bits_per_sample / 8`, 0 to 4):
   * null for 0, then 8, 16, 32 and 32 bits.
   */
  function AllocatorFor(bytes: nat): (r: Option<SampleType>)
    requires bytes <= 4
    ensures r.None? <==> bytes == 0
    ensures r.Some? ==> SizeOf(r.value) >= bytes
  {
    match bytes
    case 0 => None
    case 1 => Some(Sint8)
    case 2 => Some(Sint16)
    case 3 => Some(Sint32)
    case 4 => Some(Sint32)
  }

  /** Slot of channel `channel` of frame `sample` in an interleaved array. */
  function Position(channels: nat, sample: nat, channel: nat): nat
  {
    FrameStart(channels, sample) + channel
  }

  /** The assertion in the copy loop, `(position + 1) * sizeof(SampleT) <= byte_length`, for every slot it visits. */
  ghost predicate BoundsAssertionHolds(size: nat, byteLength: nat, channels: nat, samples: nat)
  {
    forall channel, sample :: 0 <= channel < channels && 0 <= sample < samples ==>
      (Position(channels, sample, channel) + 1) * size <= byteLength
  }

  lemma MultiplyMonotone(a: nat, b: nat, c: nat)
    requires a <= b
    ensures a * c <= b * c
  {
  }

  /** Every slot the copy loop visits lies inside the first channels * samples slots. */
  lemma PositionInside(channels: nat, samples: nat, sample: nat, channel: nat)
    requires channel < channels && sample < samples
    ensures Position(channels, sample, channel) + 1 <= channels * samples
  {
    MultiplyMonotone(sample + 1, samples, channels);
  }

  /**
   * On a non-empty frame of `bytes` bytes per sample the copy loop's assertion holds
   * exactly when the element type is no wider than the sample.
   */
  lemma {:induction false} BoundsAssertionIff(size: nat, bytes: nat, channels: nat, samples: nat)
    requires channels > 0 && samples > 0
    ensures BoundsAssertionHolds(size, FrameBytes(bytes, channels, samples), channels, samples) <==> size <= bytes
  {
    if size <= bytes {
      forall channel, sample | 0 <= channel < channels && 0 <= sample < samples
        ensures (Position(channels, sample, channel) + 1) * size <= FrameBytes(bytes, channels, samples)
      {
        SlotFits(size, bytes, channels, samples, sample, channel);
      }
    } else {
      LastSlotOverruns(size, bytes, channels, samples);
    }
  }

  /** With an element no wider than a sample, every visited slot ends inside the buffer. */
  lemma SlotFits(size: nat, bytes: nat, channels: nat, samples: nat, sample: nat, channel: nat)
    requires size <= bytes && channel < channels && sample < samples
    ensures (Position(channels, sample, channel) + 1) * size <= FrameBytes(bytes, channels, samples)
  {
    var n := channels * samples;
    assert FrameBytes(bytes, channels, samples) == n * bytes;
    PositionInside(channels, samples, sample, channel);
    MultiplyMonotone(Position(channels, sample, channel) + 1, n, size);
    MultiplyMonotone(size, bytes, n);
  }

  /** With an element wider than a sample, the last slot of the last frame ends past the buffer. */
  lemma LastSlotOverruns(size: nat, bytes: nat, channels: nat, samples: nat)
    requires bytes < size && channels > 0 && samples > 0
    ensures (Position(channels, samples - 1, channels - 1) + 1) * size > FrameBytes(bytes, channels, samples)
  {
    var n := channels * samples;
    assert FrameBytes(bytes, channels, samples) == n * bytes;
    assert Position(channels, samples - 1, channels - 1) + 1 == n;
    MultiplyMonotone(bytes + 1, size, n);
  }

  /**
   * The table fits the buffer `copy_to_new_buffer` allocates for 1, 2 and 4 bytes per
   * sample only: 0 has no entry and 3 gets a 4-byte type.
   */
  lemma AllocatorTableFits(bytes: nat, channels: nat, samples: nat)
    requires bytes <= 4 && channels > 0 && samples > 0
    ensures (AllocatorFor(bytes).Some? &&
             BoundsAssertionHolds(SizeOf(AllocatorFor(bytes).value), FrameBytes(bytes, channels, samples), channels, samples))
      <==> bytes == 1 || bytes == 2 || bytes == 4
  {
    if bytes != 0 {
      BoundsAssertionIff(SizeOf(AllocatorFor(bytes).value), bytes, channels, samples);
    }
  }

  /** A decoded frame: its header fields and one array of 32-bit samples per channel. */
  datatype Frame = Frame(bitsPerSample: nat, channels: nat, blocksize: nat, sampleRate: nat, channelData: seq<seq<int>>)

  /** The bytes per sample the frame header declares. */
  function FrameBytesPerSample(f: Frame): nat
  {
    f.bitsPerSample / 8
  }

  /** A frame libFLAC can hand over: one array per channel, each at least a block long. */
  predicate WellShaped(f: Frame)
  {
    && |f.channelData| == f.channels
    && forall c :: 0 <= c < |f.channelData| ==> |f.channelData[c]| >= f.blocksize
  }

  /**
   * A frame `write_callback` can copy: its depth has a table entry whose type fits the
   * sample width (8, 16 or 32 bits per byte-rounded sample), and its rate is positive.
   */
  predicate Copyable(f: Frame)
  {
    && WellShaped(f)
    && FrameBytesPerSample(f) in {1, 2, 4}
    && f.sampleRate > 0
  }

  /** The sample type the table picks for a copyable frame. */
  function SampleTypeOf(f: Frame): (t: SampleType)
    requires Copyable(f)
    ensures SizeOf(t) == FrameBytesPerSample(f)
  {
    AllocatorFor(FrameBytesPerSample(f)).value
  }

  /** The interleaved array: slot i holds sample i / channels of channel i % channels, narrowed. */
  function Interleave(data: seq<seq<int>>, channels: nat, samples: nat, t: SampleType): (r: seq<int>)
    requires |data| >= channels && forall c :: 0 <= c < channels ==> |data[c]| >= samples
    ensures |r| == channels * samples
  {
    seq(channels * samples, i requires 0 <= i < channels * samples => InterleavedAt(data, channels, samples, t, i))
  }

  /** Slot i of the interleaved array. */
  function InterleavedAt(data: seq<seq<int>>, channels: nat, samples: nat, t: SampleType, i: nat): int
    requires |data| >= channels && forall c :: 0 <= c < channels ==> |data[c]| >= samples
    requires i < channels * samples
  {
    DivisionInside(i, channels, samples);
    var channel, sample := i % channels, i / channels;
    assert |data[channel]| >= samples;
    Narrow(data[channel][sample], t)
  }

  /** A multiple of a positive number is 0 or at least that number in size. */
  lemma MultipleBounds(k: int, n: int)
    requires n >= 0
    ensures k >= 1 ==> k * n >= n
    ensures k <= -1 ==> k * n <= -n
  {
    if k >= 1 {
      MultiplyMonotone(1, k, n);
    } else if k <= -1 {
      MultiplyMonotone(1, -k, n);
    }
  }

  /** Slot i of a channels * samples array is frame i / channels, channel i % channels. */
  lemma DivisionInside(i: nat, channels: nat, samples: nat)
    requires i < channels * samples
    ensures channels > 0 && i % channels < channels && i / channels < samples
  {
    assert channels > 0;
    var q := i / channels;
    var r := i % channels;
    assert (samples - q) * channels == channels * samples - i + r;
    MultipleBounds(samples - q, channels);
  }

  /** Division by the channel count recovers frame and channel from a slot. */
  lemma PositionDivision(channels: nat, sample: nat, channel: nat)
    requires channel < channels
    ensures Position(channels, sample, channel) / channels == sample
    ensures Position(channels, sample, channel) % channels == channel
  {
    var p := Position(channels, sample, channel);
    var q := p / channels;
    var r := p % channels;
    assert (q - sample) * channels == channel - r;
    MultipleBounds(q - sample, channels);
  }

  /** Slot (sample, channel) of the interleaved array holds that channel's sample. */
  lemma InterleaveSlot(data: seq<seq<int>>, channels: nat, samples: nat, t: SampleType, sample: nat, channel: nat)
    requires |data| >= channels && forall c :: 0 <= c < channels ==> |data[c]| >= samples
    requires channel < channels && sample < samples
    ensures Position(channels, sample, channel) < channels * samples
    ensures Interleave(data, channels, samples, t)[Position(channels, sample, channel)] == Narrow(data[channel][sample], t)
  {
    PositionInside(channels, samples, sample, channel);
    PositionDivision(channels, sample, channel);
  }

  /** Reading the interleaved array back out, one array per channel. */
  function Deinterleave(slots: seq<int>, channels: nat, samples: nat): (r: seq<seq<int>>)
    requires |slots| == channels * samples
    ensures |r| == channels && forall c :: 0 <= c < channels ==> |r[c]| == samples
  {
    seq(channels, c requires 0 <= c < channels =>
      seq(samples, s requires 0 <= s < samples =>
        PositionInside(channels, samples, s, c);
        slots[Position(channels, s, c)]))
  }

  /** Interleaving loses nothing: on samples that fit the type, de-interleaving gives the channels back. */
  lemma InterleaveRoundTrip(data: seq<seq<int>>, channels: nat, samples: nat, t: SampleType)
    requires |data| == channels && forall c :: 0 <= c < channels ==> |data[c]| == samples
    requires forall c, s :: 0 <= c < channels && 0 <= s < samples ==> Fits(data[c][s], t)
    ensures Deinterleave(Interleave(data, channels, samples, t), channels, samples) == data
  {
    var r := Deinterleave(Interleave(data, channels, samples, t), channels, samples);
    forall c | 0 <= c < channels ensures r[c] == data[c] {
      forall s | 0 <= s < samples ensures r[c][s] == data[c][s] {
        InterleaveSlot(data, channels, samples, t, s, c);
      }
    }
  }

  /** The format `write_callback` declares for a frame: its byte depth, channels and rate, signed. */
  function FrameFormat(f: Frame): AudioFormat
  {
    AudioFormat(FrameBytesPerSample(f), f.channels, f.sampleRate, true)
  }

  /** The buffer `copy_to_new_buffer` produces for a copyable frame. */
  function FrameBuffer(f: Frame): (b: AudioBuffer)
    requires Copyable(f)
    ensures b.bytesPerChannel == FrameBytesPerSample(f) && b.channels == f.channels && b.samples == f.blocksize
    ensures b.byteLength == FrameBytes(b.bytesPerChannel, b.channels, b.samples)
    ensures |b.data| == f.channels * f.blocksize
  {
    var bytes := FrameBytesPerSample(f);
    AudioBuffer(bytes, f.channels, f.blocksize, FrameBytes(bytes, f.channels, f.blocksize),
      Interleave(f.channelData, f.channels, f.blocksize, SampleTypeOf(f)))
  }

  /** The slots the copy loop has written by the time it reaches (channel, sample). */
  ghost predicate Filled(slots: seq<int>, data: seq<seq<int>>, channels: nat, samples: nat, t: SampleType,
                         channel: nat, sample: nat)
    requires |data| >= channels && forall c :: 0 <= c < channels ==> |data[c]| >= samples
  {
    forall c, s :: 0 <= c < channels && 0 <= s < samples && (c < channel || (c == channel && s < sample)) ==>
      Position(channels, s, c) < |slots| && slots[Position(channels, s, c)] == Narrow(data[c][s], t)
  }

  /** Two different (sample, channel) pairs never share a slot. */
  lemma PositionInjective(channels: nat, s1: nat, c1: nat, s2: nat, c2: nat)
    requires c1 < channels && c2 < channels
    requires Position(channels, s1, c1) == Position(channels, s2, c2)
    ensures s1 == s2 && c1 == c2
  {
    PositionDivision(channels, s1, c1);
    PositionDivision(channels, s2, c2);
  }

  /** Writing slot (sample, channel) extends what is filled by one step. */
  lemma FilledStep(slots: seq<int>, data: seq<seq<int>>, channels: nat, samples: nat, t: SampleType,
                   channel: nat, sample: nat)
    requires |data| >= channels && forall c :: 0 <= c < channels ==> |data[c]| >= samples
    requires channel < channels && sample < samples
    requires Position(channels, sample, channel) < |slots|
    requires Filled(slots, data, channels, samples, t, channel, sample)
    ensures Filled(slots[Position(channels, sample, channel) := Narrow(data[channel][sample], t)],
                   data, channels, samples, t, channel, sample + 1)
  {
    var p := Position(channels, sample, channel);
    var after := slots[p := Narrow(data[channel][sample], t)];
    forall c, s | 0 <= c < channels && 0 <= s < samples && (c < channel || (c == channel && s < sample + 1))
      ensures Position(channels, s, c) < |after| && after[Position(channels, s, c)] == Narrow(data[c][s], t)
    {
      if Position(channels, s, c) == p {
        PositionInjective(channels, s, c, sample, channel);
      }
    }
  }

  /** A channel filled to its last sample is the start of the next channel. */
  lemma FilledNextChannel(slots: seq<int>, data: seq<seq<int>>, channels: nat, samples: nat, t: SampleType, channel: nat)
    requires |data| >= channels && forall c :: 0 <= c < channels ==> |data[c]| >= samples
    requires Filled(slots, data, channels, samples, t, channel, samples)
    ensures Filled(slots, data, channels, samples, t, channel + 1, 0)
  {
  }

  /** The buffer holds at least channels * samples elements when the loop's assertion holds. */
  lemma ElementsSuffice(size: nat, byteLength: nat, channels: nat, samples: nat)
    requires size > 0 && BoundsAssertionHolds(size, byteLength, channels, samples)
    ensures channels * samples <= byteLength / size
  {
    if channels > 0 && samples > 0 {
      PositionInside(channels, samples, samples - 1, channels - 1);
      assert (Position(channels, samples - 1, channels - 1) + 1) * size <= byteLength;
      QuotientBound(channels * samples, size, byteLength);
    }
  }

  /** Once every channel is filled, the first channels * samples slots are the interleaved array. */
  lemma FilledIsInterleave(slots: seq<int>, data: seq<seq<int>>, channels: nat, samples: nat, t: SampleType)
    requires |data| >= channels && forall c :: 0 <= c < channels ==> |data[c]| >= samples
    requires |slots| >= channels * samples
    requires Filled(slots, data, channels, samples, t, channels, 0)
    ensures slots[..channels * samples] == Interleave(data, channels, samples, t)
  {
    forall i | 0 <= i < channels * samples
      ensures slots[i] == Interleave(data, channels, samples, t)[i]
    {
      FilledSlot(slots, data, channels, samples, t, i);
    }
  }

  /** One slot of a completely filled array holds the interleaved value. */
  lemma FilledSlot(slots: seq<int>, data: seq<seq<int>>, channels: nat, samples: nat, t: SampleType, i: nat)
    requires |data| >= channels && forall c :: 0 <= c < channels ==> |data[c]| >= samples
    requires Filled(slots, data, channels, samples, t, channels, 0)
    requires i < channels * samples <= |slots|
    ensures slots[i] == Interleave(data, channels, samples, t)[i]
  {
    DivisionInside(i, channels, samples);
    var s, c := i / channels, i % channels;
    assert i == Position(channels, s, c);
    assert slots[Position(channels, s, c)] == Narrow(data[c][s], t);
    InterleaveSlot(data, channels, samples, t, s, c);
  }

  /** A multiple of a positive size that fits in n fits in n's quotient by the size. */
  lemma QuotientBound(k: nat, size: nat, n: nat)
    requires size > 0 && k * size <= n
    ensures k <= n / size
  {
    var q := n / size;
    var r := n % size;
    assert (k - q) * size <= r;
    MultipleBounds(k - q, size);
  }

  /** Allocating bytes * channels * samples bytes holds channels * samples elements of bytes bytes. */
  lemma ElementCount(bytes: nat, channels: nat, samples: nat)
    requires bytes > 0
    ensures FrameBytes(bytes, channels, samples) / bytes == channels * samples
  {
    var n := channels * samples;
    assert FrameBytes(bytes, channels, samples) == n * bytes + 0;
    PositionDivision(bytes, n, 0);
  }

  /**
   * `copy_to_new_buffer<SampleT>`: allocates a buffer shaped by the header, views its
   * bytes as `SampleT` elements and fills them channel by channel, sample by sample.
   * The loop's assertion is the precondition; it is what keeps every write inside.
   */
  method CopyToNewBuffer(t: SampleType, f: Frame) returns (ret: AudioBuffer)
    requires WellShaped(f)
    requires BoundsAssertionHolds(SizeOf(t), FrameBytes(FrameBytesPerSample(f), f.channels, f.blocksize), f.channels, f.blocksize)
    ensures ret.bytesPerChannel == FrameBytesPerSample(f) && ret.channels == f.channels && ret.samples == f.blocksize
    ensures ret.byteLength == FrameBytes(FrameBytesPerSample(f), f.channels, f.blocksize)
    ensures |ret.data| == ret.byteLength / SizeOf(t) >= f.channels * f.blocksize
    ensures ret.data[..f.channels * f.blocksize] == Interleave(f.channelData, f.channels, f.blocksize, t)
  {
    var bytes := FrameBytesPerSample(f);
    var channels := f.channels;
    var samples := f.blocksize;
    var byteLength := FrameBytes(bytes, channels, samples);
    var slots := new int[byteLength / SizeOf(t)];
    var channel := 0;
    while channel < channels
      invariant 0 <= channel <= channels
      invariant Filled(slots[..], f.channelData, channels, samples, t, channel, 0)
    {
      var sample := 0;
      while sample < samples
        invariant 0 <= sample <= samples
        invariant Filled(slots[..], f.channelData, channels, samples, t, channel, sample)
      {
        var position := Position(channels, sample, channel);
        assert (position + 1) * SizeOf(t) <= byteLength;
        QuotientBound(position + 1, SizeOf(t), byteLength);
        ghost var before := slots[..];
        FilledStep(before, f.channelData, channels, samples, t, channel, sample);
        slots[position] := Narrow(f.channelData[channel][sample], t);
        sample := sample + 1;
      }
      FilledNextChannel(slots[..], f.channelData, channels, samples, t, channel);
      channel := channel + 1;
    }
    ElementsSuffice(SizeOf(t), byteLength, channels, samples);
    FilledIsInterleave(slots[..], f.channelData, channels, samples, t);
    ret := AudioBuffer(bytes, channels, samples, byteLength, slots[..]);
  }

  /**
   * The decoder object: the queue of decoded buffers, the format the stream declared
   * (once a frame has been written) and the libFLAC stand-in.
   */
  class FlacDecoder {
    var buffers: seq<AudioBuffer>
    var declaredFormat: AudioFormat
    var declaredFormatSet: bool
    /** `get_state() == FLAC__STREAM_DECODER_END_OF_STREAM`. */
    var endOfStream: bool
    /** What `process_single` meets next, in order: a frame, or a decoding error (`None`). */
    var upcoming: seq<Option<Frame>>
    /** `get_total_samples()`. */
    const totalSamples: nat

    ghost predicate Valid()
      reads this
    {
      && (forall i :: 0 <= i < |upcoming| && upcoming[i].Some? ==> Copyable(upcoming[i].value))
      && (endOfStream ==> upcoming == [])
    }

    /** After the metadata has been processed: no buffers queued, no format declared. */
    constructor (upcoming: seq<Option<Frame>>, totalSamples: nat)
      requires forall i :: 0 <= i < |upcoming| && upcoming[i].Some? ==> Copyable(upcoming[i].value)
      ensures Valid()
      ensures buffers == [] && !declaredFormatSet && !endOfStream
      ensures this.upcoming == upcoming && this.totalSamples == totalSamples
    {
      buffers := [];
      declaredFormat := AudioFormat(0, 0, 0, false);
      declaredFormatSet := false;
      endOfStream := false;
      this.upcoming := upcoming;
      this.totalSamples := totalSamples;
    }

    /**
     * `write_callback`: queues the frame's buffer at the back and records the declared
     * format, signed, as set.
     */
    method WriteCallback(f: Frame)
      requires Copyable(f)
      modifies this
      ensures buffers == old(buffers) + [FrameBuffer(f)]
      ensures declaredFormatSet
      ensures declaredFormat == FrameFormat(f)
      ensures upcoming == old(upcoming) && endOfStream == old(endOfStream)
    {
      var bytes := FrameBytesPerSample(f);
      var t := AllocatorFor(bytes).value;
      BoundsAssertionIffShaped(SizeOf(t), bytes, f.channels, f.blocksize);
      var b := CopyToNewBuffer(t, f);
      ElementCount(bytes, f.channels, f.blocksize);
      assert b.data == b.data[..f.channels * f.blocksize];
      buffers := buffers + [b];
      declaredFormat := AudioFormat(bytes, f.channels, f.sampleRate, true);
      declaredFormatSet := true;
    }

    /**
     * Stand-in for libFLAC's `process_single`: at the end of the stream it reports the
     * end-of-stream state; otherwise it meets the next frame, which it passes to the
     * write callback, or a decoding error, which makes it fail.
     */
    method ProcessSingle() returns (ok: bool)
      requires Valid()
      modifies this
      ensures Valid()
      ensures old(upcoming) == [] ==> ok && endOfStream && buffers == old(buffers) && upcoming == []
      ensures old(upcoming) != [] ==> upcoming == old(upcoming)[1..] && endOfStream == old(endOfStream)
      ensures old(upcoming) != [] && old(upcoming)[0].None? ==> !ok && buffers == old(buffers)
      ensures old(upcoming) != [] && old(upcoming)[0].Some? ==>
        ok && buffers == old(buffers) + [FrameBuffer(old(upcoming)[0].value)]
      ensures old(upcoming) != [] && old(upcoming)[0].Some? ==>
        declaredFormatSet && declaredFormat == FrameFormat(old(upcoming)[0].value)
      ensures !(old(upcoming) != [] && old(upcoming)[0].Some?) ==>
        declaredFormat == old(declaredFormat) && declaredFormatSet == old(declaredFormatSet)
    {
      if upcoming == [] {
        endOfStream := true;
        return true;
      }
      var next := upcoming[0];
      upcoming := upcoming[1..];
      if next.None? {
        return false;
      }
      WriteCallback(next.value);
      return true;
    }

    /**
     * `read_more_internal`: the front of the queue, decoding until the queue has one;
     * an empty buffer once the stream has ended or decoding failed.
     */
    method ReadMoreInternal() returns (r: AudioBuffer)
      requires Valid()
      modifies this
      ensures Valid()
      ensures old(endOfStream) ==> r == EmptyBuffer && buffers == old(buffers) && upcoming == old(upcoming)
      ensures !old(endOfStream) && old(buffers) != [] ==>
        r == old(buffers)[0] && buffers == old(buffers)[1..] && upcoming == old(upcoming)
      ensures !old(endOfStream) && old(buffers) == [] && old(upcoming) == [] ==>
        r == EmptyBuffer && endOfStream && buffers == []
      ensures !old(endOfStream) && old(buffers) == [] && old(upcoming) != [] && old(upcoming)[0].None? ==>
        r == EmptyBuffer && buffers == [] && upcoming == old(upcoming)[1..]
      ensures !old(endOfStream) && old(buffers) == [] && old(upcoming) != [] && old(upcoming)[0].Some? ==>
        r == FrameBuffer(old(upcoming)[0].value) && buffers == [] && upcoming == old(upcoming)[1..]
      ensures endOfStream == (old(endOfStream) || (old(buffers) == [] && old(upcoming) == []))
      ensures !old(endOfStream) && old(buffers) == [] && old(upcoming) != [] && old(upcoming)[0].Some? ==>
        declaredFormatSet && declaredFormat == FrameFormat(old(upcoming)[0].value)
      ensures !(!old(endOfStream) && old(buffers) == [] && old(upcoming) != [] && old(upcoming)[0].Some?) ==>
        declaredFormat == old(declaredFormat) && declaredFormatSet == old(declaredFormatSet)
    {
      var ok := true;
      var state := endOfStream;
      ghost var stepped := false;
      while true
        invariant Valid()
        invariant !stepped ==> ok && state == old(endOfStream) && buffers == old(buffers) && upcoming == old(upcoming)
        invariant !stepped ==> endOfStream == old(endOfStream)
        invariant stepped && old(upcoming) != [] ==> endOfStream == old(endOfStream) == false
        invariant stepped && old(upcoming) != [] && old(upcoming)[0].Some? ==>
          declaredFormatSet && declaredFormat == FrameFormat(old(upcoming)[0].value)
        invariant !(stepped && old(upcoming) != [] && old(upcoming)[0].Some?) ==>
          declaredFormat == old(declaredFormat) && declaredFormatSet == old(declaredFormatSet)
        invariant stepped ==> old(buffers) == []
        invariant stepped && old(upcoming) == [] ==> ok && state && endOfStream && buffers == [] && upcoming == []
        invariant stepped && old(upcoming) != [] ==> upcoming == old(upcoming)[1..] && !state
        invariant stepped && old(upcoming) != [] && old(upcoming)[0].None? ==> !ok && buffers == []
        invariant stepped && old(upcoming) != [] && old(upcoming)[0].Some? ==>
          ok && buffers == [FrameBuffer(old(upcoming)[0].value)]
        decreases |upcoming| + (if stepped then 0 else 1)
      {
        if buffers != [] {
          break;
        }
        ok := ProcessSingle();
        stepped := true;
        if !ok {
          break;
        }
        state := endOfStream;
        if state {
          break;
        }
      }
      if state || !ok {
        return EmptyBuffer;
      }
      r := buffers[0];
      buffers := buffers[1..];
    }

    /** `free_buffers`: drops every queued buffer. */
    method FreeBuffers()
      modifies this
      ensures buffers == []
      ensures upcoming == old(upcoming) && endOfStream == old(endOfStream)
      ensures declaredFormat == old(declaredFormat) && declaredFormatSet == old(declaredFormatSet)
    {
      buffers := [];
    }

    /**
     * `seek`: asks libFLAC to seek (`seekAbsolute` gives the frames from the target on,
     * or `None` when the seek fails) and drops the queued buffers only when it succeeded.
     */
    method Seek(p: nat, seekAbsolute: nat -> Option<seq<Option<Frame>>>) returns (ok: bool)
      requires Valid()
      requires seekAbsolute(p).Some? ==>
        forall i :: 0 <= i < |seekAbsolute(p).value| && seekAbsolute(p).value[i].Some? ==>
          Copyable(seekAbsolute(p).value[i].value)
      modifies this
      ensures Valid()
      ensures ok == seekAbsolute(p).Some?
      ensures ok ==> buffers == [] && upcoming == seekAbsolute(p).value && !endOfStream
      ensures !ok ==> buffers == old(buffers) && upcoming == old(upcoming) && endOfStream == old(endOfStream)
      ensures declaredFormat == old(declaredFormat) && declaredFormatSet == old(declaredFormatSet)
    {
      var target := seekAbsolute(p);
      ok := target.Some?;
      if ok {
        upcoming := target.value;
        endOfStream := false;
        FreeBuffers();
      }
    }

    /**
     * `get_seconds_length_internal`: -1 until a frame has declared the format, then the
     * total sample count over the declared rate.
     */
    function SecondsLength(): (r: real)
      reads this
      ensures r == -1.0 <==> !declaredFormatSet
      ensures declaredFormatSet ==> r >= 0.0
    {
      if !declaredFormatSet then -1.0
      else if declaredFormat.freq == 0 then 0.0
      else totalSamples as real / declaredFormat.freq as real
    }
  }

  /** `BoundsAssertionIff` in the direction `write_callback` needs, on any frame shape. */
  lemma BoundsAssertionIffShaped(size: nat, bytes: nat, channels: nat, samples: nat)
    requires size <= bytes
    ensures BoundsAssertionHolds(size, FrameBytes(bytes, channels, samples), channels, samples)
  {
    if channels > 0 && samples > 0 {
      BoundsAssertionIff(size, bytes, channels, samples);
    }
  }
}

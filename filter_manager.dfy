/**
 * The `AudioFilterManager` object: it owns the stage chain, the flags that say whether
 * the chain was built and whether it converts anything, and the look-ahead buffer kept
 * between two reads. The decoder it reads from is a stand-in holding the buffers the
 * decoder will hand out, in order.
 */
module FilterManager {
  import opened AudioTypes
  import opened AudioFilter

  /**
   * What the manager needs of a decoder: its current format, whether it asks for lazy
   * allocation, and the buffers its `read` will return, in order. Once those are used
   * up it keeps returning empty buffers.
   */
  class Decoder {
    var format: AudioFormat
    const lazyFilterAllocation: bool
    var pending: seq<AudioBuffer>

    constructor (format: AudioFormat, lazyFilterAllocation: bool, pending: seq<AudioBuffer>)
      ensures this.format == format && this.lazyFilterAllocation == lazyFilterAllocation
      ensures this.pending == pending
    {
      this.format := format;
      this.lazyFilterAllocation := lazyFilterAllocation;
      this.pending := pending;
    }

    /** Hands out the next buffer, or an empty one when the stream is over. */
    method Read() returns (b: AudioBuffer)
      modifies this
      ensures old(pending) == [] ==> b == EmptyBuffer && pending == []
      ensures old(pending) != [] ==> b == old(pending)[0] && pending == old(pending)[1..]
      ensures format == old(format)
    {
      if pending == [] {
        b := EmptyBuffer;
      } else {
        b := pending[0];
        pending := pending[1..];
      }
    }
  }

  class AudioFilterManager {
    const decoder: Decoder
    const dstFormat: AudioFormat
    const multiplier: real
    var filters: seq<FilterEntry>
    var filterAllocated: bool
    var needTwoBuffers: bool
    var dontConvert: bool
    var savedBuffer: AudioBuffer
    /** A gain stage was added before a lazily allocating decoder's chain was built. */
    ghost var gainBeforeAllocation: bool

    /**
     * An eager decoder always has its chain; once the chain is built, `dontConvert`
     * says exactly that it is empty. The chain is sorted by `FilterIndices`, and so
     * holds at most one stage of each kind, unless a gain stage was added before a lazy
     * allocation pushed the other stages behind it.
     */
    ghost predicate Valid()
      reads this
    {
      && (!decoder.lazyFilterAllocation ==> filterAllocated)
      && (filterAllocated ==> (dontConvert <==> filters == []))
      && (!filterAllocated && !gainBeforeAllocation ==> filters == [])
      && (gainBeforeAllocation ==> decoder.lazyFilterAllocation)
      && (!gainBeforeAllocation ==> Sorted(filters))
    }

    /**
     * Builds the chain at once unless the decoder asks for lazy allocation. The first
     * read always gathers two buffers.
     */
    constructor (decoder: Decoder, dstFormat: AudioFormat, multiplier: real)
      ensures Valid()
      ensures this.decoder == decoder && this.dstFormat == dstFormat && this.multiplier == multiplier
      ensures needTwoBuffers && savedBuffer == EmptyBuffer && !gainBeforeAllocation
      ensures filterAllocated == !decoder.lazyFilterAllocation
      ensures filters == if decoder.lazyFilterAllocation then [] else RequiredStages(decoder.format, dstFormat, multiplier)
    {
      this.decoder := decoder;
      this.dstFormat := dstFormat;
      this.multiplier := multiplier;
      filters := [];
      filterAllocated := false;
      needTwoBuffers := true;
      dontConvert := false;
      savedBuffer := EmptyBuffer;
      gainBeforeAllocation := false;
      new;
      if !decoder.lazyFilterAllocation {
        AllocateFilters(multiplier);
      }
    }

    /**
     * `allocate_filters`: appends one stage per differing field (and a gain stage when
     * the multiplier is not unity), then records whether the chain converts anything.
     */
    method AllocateFilters(multiplier: real)
      modifies this
      ensures filters == old(filters) + RequiredStages(decoder.format, dstFormat, multiplier)
      ensures dontConvert <==> filters == []
      ensures filterAllocated
      ensures needTwoBuffers == old(needTwoBuffers) && savedBuffer == old(savedBuffer)
      ensures gainBeforeAllocation == old(gainBeforeAllocation)
    {
      var src := decoder.format;
      var chain := filters;
      var temp := src.(isSigned := dstFormat.isSigned);
      chain := PushIf(chain, src.isSigned != temp.isSigned, FilterEntry(SignednessFilter, Some(Signedness(src, temp))));
      temp := temp.(bytesPerChannel := dstFormat.bytesPerChannel);
      chain := PushIf(chain, src.bytesPerChannel != temp.bytesPerChannel,
        FilterEntry(BitShiftingFilter, Some(BitShifting(src, temp))));
      temp := temp.(channels := dstFormat.channels);
      chain := PushIf(chain, src.channels != temp.channels, MixingEntry(src, temp));
      chain := PushIf(chain, multiplier != 1.0, GainEntry(temp, multiplier));
      temp := temp.(freq := dstFormat.freq);
      chain := PushIf(chain, src.freq != temp.freq, FilterEntry(ResamplingFilter, Some(Resampling(src, temp))));
      RequiredStagesAppended(filters, src, dstFormat, multiplier);
      filters := chain;
      dontConvert := filters == [];
      filterAllocated := true;
    }

    /**
     * `read`: gathers up to two decoder buffers (starting from the saved look-ahead
     * buffer after the first call), builds the chain on first use when allocation is
     * lazy, keeps the second buffer for the next call, and returns the first buffer
     * untouched or run through the chain. `requiredBytes` and `runStage` stand for the
     * stages' `calculate_required_byte_size` and `read`.
     */
    method Read(requiredBytes: (Stage, nat) -> nat, runStage: (Stage, AudioBuffer, seq<AudioBuffer>) -> AudioBuffer)
      returns (r: AudioBuffer, samplesReadFromDecoder: nat)
      requires Valid()
      modifies this, decoder
      ensures Valid()
      ensures var g := Gather(LookAheadStart(old(needTwoBuffers), old(savedBuffer)), old(decoder.pending));
        && decoder.pending == g.1
        && samplesReadFromDecoder == (if g.0 == [] then 0 else g.0[0].samples)
        && savedBuffer == (if |g.0| > 1 then g.0[1] else EmptyBuffer)
        && r == Converted(g.0, filters, dontConvert, requiredBytes, runStage)
      ensures !needTwoBuffers && filterAllocated && decoder.format == old(decoder.format)
      ensures old(filterAllocated) ==> filters == old(filters) && dontConvert == old(dontConvert)
      ensures !old(filterAllocated) ==> filters == old(filters) + RequiredStages(old(decoder.format), dstFormat, multiplier)
      ensures gainBeforeAllocation == old(gainBeforeAllocation)
    {
      var buffers: seq<AudioBuffer> := [];
      if !needTwoBuffers && !IsEmpty(savedBuffer) {
        buffers := [savedBuffer];
      }
      needTwoBuffers := false;
      buffers := GatherBuffers(buffers);
      samplesReadFromDecoder := if buffers == [] then 0 else buffers[0].samples;
      if !filterAllocated && decoder.lazyFilterAllocation {
        AllocateOnFirstRead();
      }
      if |buffers| > 1 {
        savedBuffer := buffers[1];
      } else {
        savedBuffer := EmptyBuffer;
      }
      if buffers == [] {
        return EmptyBuffer, samplesReadFromDecoder;
      }
      if IsEmpty(buffers[0]) || dontConvert {
        return buffers[0], samplesReadFromDecoder;
      }
      var maxBytes := MaxBytesRequired(buffers[0].byteLength, requiredBytes);
      var working := CloneWithMinimumByteLength(buffers[0], maxBytes);
      r := RunChain(working, buffers[1..], runStage);
    }

    /** The lazy branch of `read`: the chain is built behind whatever gain stage was added before. */
    method AllocateOnFirstRead()
      requires Valid() && !filterAllocated
      modifies this
      ensures Valid()
      ensures filters == old(filters) + RequiredStages(decoder.format, dstFormat, multiplier)
      ensures filterAllocated && dontConvert == (filters == [])
      ensures needTwoBuffers == old(needTwoBuffers) && savedBuffer == old(savedBuffer)
      ensures gainBeforeAllocation == old(gainBeforeAllocation)
    {
      AllocateFilters(multiplier);
      if !gainBeforeAllocation {
        assert old(filters) == [];
        assert filters == RequiredStages(decoder.format, dstFormat, multiplier);
      }
    }

    /** The gathering loop of `read`: decoder buffers are appended until two are held or one comes back empty. */
    method GatherBuffers(start: seq<AudioBuffer>) returns (buffers: seq<AudioBuffer>)
      requires |start| <= 2
      modifies decoder
      ensures (buffers, decoder.pending) == Gather(start, old(decoder.pending))
      ensures decoder.format == old(decoder.format)
    {
      buffers := start;
      while |buffers| < 2
        invariant |buffers| <= 2
        invariant Gather(buffers, decoder.pending) == Gather(start, old(decoder.pending))
        invariant decoder.format == old(decoder.format)
        decreases 2 - |buffers|
      {
        var buffer := decoder.Read();
        if IsEmpty(buffer) {
          break;
        }
        buffers := buffers + [buffer];
      }
    }

    /** The sizing loop of `read`: the largest byte size any non-null stage asks for, and the input size. */
    method MaxBytesRequired(input: nat, requiredBytes: (Stage, nat) -> nat) returns (maxBytes: nat)
      ensures maxBytes == MaxRequired(filters, input, requiredBytes)
    {
      var bytesRequired := input;
      maxBytes := bytesRequired;
      var i := 0;
      while i < |filters|
        invariant 0 <= i <= |filters|
        invariant bytesRequired == ChainedBytes(filters[..i], input, requiredBytes)
        invariant maxBytes == MaxRequired(filters[..i], input, requiredBytes)
      {
        assert filters[..i + 1][..i] == filters[..i];
        if filters[i].stage.Some? {
          bytesRequired := requiredBytes(filters[i].stage.value, bytesRequired);
          maxBytes := if bytesRequired > maxBytes then bytesRequired else maxBytes;
        }
        i := i + 1;
      }
      assert filters[..|filters|] == filters;
    }

    /** The stage loop of `read`, corrected to skip null stages as the sizing loop does. */
    method RunChain(working: AudioBuffer, lookAhead: seq<AudioBuffer>,
                    runStage: (Stage, AudioBuffer, seq<AudioBuffer>) -> AudioBuffer)
      returns (r: AudioBuffer)
      ensures r == ApplyChain(filters, working, lookAhead, runStage)
    {
      r := working;
      var i := 0;
      while i < |filters|
        invariant 0 <= i <= |filters|
        invariant r == ApplyChain(filters[..i], working, lookAhead, runStage)
      {
        assert filters[..i + 1][..i] == filters[..i];
        if filters[i].stage.Some? {
          r := runStage(filters[i].stage.value, r, lookAhead);
        }
        i := i + 1;
      }
      assert filters[..|filters|] == filters;
    }

    /**
     * `add_multiplication_filter`, corrected: the search stops at the first stage that
     * does not sort below a gain stage; if that is a gain stage nothing happens,
     * otherwise a gain stage told the format reaching that position is inserted there,
     * and the chain is no longer a passthrough.
     */
    method AddMultiplicationFilter(factor: real)
      requires Valid()
      modifies this
      ensures Valid()
      ensures filters == AddGain(old(filters), decoder.format, factor)
      ensures filters == old(filters) ==> dontConvert == old(dontConvert)
      ensures filters != old(filters) ==> !dontConvert
      ensures Sorted(old(filters)) ==> Sorted(filters) && Has(filters, MultiplicationFilter)
      ensures gainBeforeAllocation == (old(gainBeforeAllocation) || !filterAllocated)
      ensures filterAllocated == old(filterAllocated)
      ensures needTwoBuffers == old(needTwoBuffers) && savedBuffer == old(savedBuffer)
    {
      ghost var before := filters;
      gainBeforeAllocation := gainBeforeAllocation || !filterAllocated;
      var index, present := FindGainSlot();
      if !present {
        var format := FormatReaching(filters[..index + 1], decoder.format);
        filters := filters[..index + 1] + [GainEntry(format, factor)] + filters[index + 1..];
        assert |filters| == |before| + 1;
        dontConvert := false;
      }
      if Sorted(before) {
        AddGainKeepsSorted(before, decoder.format, factor);
      }
    }

    /**
     * The search loop of `add_multiplication_filter`: `index` is the last stage sorting
     * below a gain stage (-1 for none), and the loop returns early exactly when the next
     * stage is a gain stage.
     */
    method FindGainSlot() returns (index: int, present: bool)
      ensures -1 <= index && index + 1 == GainPosition(filters)
      ensures present <==> index + 1 < |filters| && filters[index + 1].index == MultiplicationFilter
    {
      index := -1;
      var j := 0;
      while j < |filters|
        invariant 0 <= j <= |filters| && index == j - 1
        invariant forall m :: 0 <= m < j ==> Priority(filters[m].index) < Priority(MultiplicationFilter)
      {
        if filters[j].index == MultiplicationFilter {
          GainPositionUnique(filters, j);
          return index, true;
        }
        if Priority(filters[j].index) > Priority(MultiplicationFilter) {
          break;
        }
        index := j;
        j := j + 1;
      }
      GainPositionUnique(filters, index + 1);
      present := false;
    }
  }
}

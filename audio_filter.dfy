/**
 * The filter-chain manager: it compares the decoder's format with the device format,
 * builds the ordered list of conversion stages, gathers decoder buffers with one buffer
 * of look-ahead, sizes a working buffer for the whole chain and runs the stages.
 *
 * The stages other than channel mixing are opaque here: what a stage needs in bytes
 * (`calculate_required_byte_size`) and what its `read` makes of the working buffer are
 * parameters of `Read`.
 */
module AudioFilter {
  import opened AudioTypes
  import ChannelMixing

  /** The kinds of stage, in the order of the `FilterIndices` enumeration. */
  datatype FilterIndex =
    | SignednessFilter
    | BitShiftingFilter
    | ChannelMixingFilter
    | MultiplicationFilter
    | ResamplingFilter

  /** The enumeration value of a kind: the fixed priority that orders a chain. */
  function Priority(k: FilterIndex): nat
  {
    match k
    case SignednessFilter => 0
    case BitShiftingFilter => 1
    case ChannelMixingFilter => 2
    case MultiplicationFilter => 3
    case ResamplingFilter => 4
  }

  /** A conversion stage with the formats it was created for. */
  datatype Stage =
    | Signedness(src: AudioFormat, dst: AudioFormat)
    | BitShifting(src: AudioFormat, dst: AudioFormat)
    | Mixing(mixer: ChannelMixing.Mixer, src: AudioFormat, dst: AudioFormat)
    | Multiplication(src: AudioFormat, factor: real)
    | Resampling(src: AudioFormat, dst: AudioFormat)

  /** `get_src_format`: the format a stage was told its input has. */
  function SrcFormat(s: Stage): AudioFormat
  {
    s.src
  }

  /** The format a stage produces; a gain stage keeps its input format. */
  function OutputFormat(s: Stage): AudioFormat
  {
    match s
    case Multiplication(src, _) => src
    case Signedness(_, dst) => dst
    case BitShifting(_, dst) => dst
    case Mixing(_, _, dst) => dst
    case Resampling(_, dst) => dst
  }

  /** The kind a stage belongs to. */
  function IndexOf(s: Stage): FilterIndex
  {
    match s
    case Signedness(_, _) => SignednessFilter
    case BitShifting(_, _) => BitShiftingFilter
    case Mixing(_, _, _) => ChannelMixingFilter
    case Multiplication(_, _) => MultiplicationFilter
    case Resampling(_, _) => ResamplingFilter
  }

  /** One element of the `filters` vector: a kind and a stage pointer that may be null. */
  datatype FilterEntry = FilterEntry(index: FilterIndex, stage: Option<Stage>)

  /** Priorities strictly increase from each entry to the next. */
  ghost predicate Sorted(filters: seq<FilterEntry>)
  {
    forall i :: 0 < i < |filters| ==> Priority(filters[i - 1].index) < Priority(filters[i].index)
  }

  /** Some entry of the chain is of kind k. */
  ghost predicate Has(filters: seq<FilterEntry>, k: FilterIndex)
  {
    exists i :: 0 <= i < |filters| && filters[i].index == k
  }

  /** A non-null stage is filed under its own kind. */
  predicate Tagged(e: FilterEntry)
  {
    e.stage.Some? ==> IndexOf(e.stage.value) == e.index
  }

  /** Every entry of the chain is `Tagged`. */
  ghost predicate WellTagged(filters: seq<FilterEntry>)
  {
    forall i :: 0 <= i < |filters| ==> Tagged(filters[i])
  }

  /** No entry holds a null stage. */
  predicate NoNullStage(filters: seq<FilterEntry>)
  {
    forall i :: 0 <= i < |filters| ==> filters[i].stage.Some?
  }

  /** In a sorted chain every earlier entry has a lower priority than every later one. */
  lemma {:induction false} SortedIsStrictlyIncreasing(filters: seq<FilterEntry>, i: nat, j: nat)
    requires Sorted(filters) && i < j < |filters|
    ensures Priority(filters[i].index) < Priority(filters[j].index)
    decreases j - i
  {
    if i + 1 < j {
      SortedIsStrictlyIncreasing(filters, i + 1, j);
    }
  }

  /** A sorted chain holds at most one stage of each kind. */
  lemma SortedHasNoDuplicateKinds(filters: seq<FilterEntry>, i: nat, j: nat)
    requires Sorted(filters) && i < |filters| && j < |filters|
    requires filters[i].index == filters[j].index
    ensures i == j
  {
    if i < j {
      SortedIsStrictlyIncreasing(filters, i, j);
    } else if j < i {
      SortedIsStrictlyIncreasing(filters, j, i);
    }
  }

  /** Whether the field a kind of stage converts differs between the two formats. */
  predicate Differs(k: FilterIndex, src: AudioFormat, dst: AudioFormat, multiplier: real)
  {
    match k
    case SignednessFilter => src.isSigned != dst.isSigned
    case BitShiftingFilter => src.bytesPerChannel != dst.bytesPerChannel
    case ChannelMixingFilter => src.channels != dst.channels
    case MultiplicationFilter => multiplier != 1.0
    case ResamplingFilter => src.freq != dst.freq
  }

  // The intermediate format `temp` after each field has been taken from the destination.
  function AfterSignedness(src: AudioFormat, dst: AudioFormat): AudioFormat
  {
    src.(isSigned := dst.isSigned)
  }

  function AfterBitShifting(src: AudioFormat, dst: AudioFormat): AudioFormat
  {
    AfterSignedness(src, dst).(bytesPerChannel := dst.bytesPerChannel)
  }

  function AfterMixing(src: AudioFormat, dst: AudioFormat): AudioFormat
  {
    AfterBitShifting(src, dst).(channels := dst.channels)
  }

  function AfterResampling(src: AudioFormat, dst: AudioFormat): (r: AudioFormat)
    ensures r == dst
  {
    AfterMixing(src, dst).(freq := dst.freq)
  }

  /** The channel-mixing entry: its stage is null when no mixer handles the channel counts. */
  function MixingEntry(src: AudioFormat, temp: AudioFormat): (e: FilterEntry)
    ensures e.index == ChannelMixingFilter && Tagged(e)
    ensures e.stage.None? <==> ChannelMixing.Create(src.channels, temp.channels).None?
  {
    match ChannelMixing.Create(src.channels, temp.channels)
    case None => FilterEntry(ChannelMixingFilter, None)
    case Some(m) => FilterEntry(ChannelMixingFilter, Some(Mixing(m, src, temp)))
  }

  function GainEntry(format: AudioFormat, factor: real): FilterEntry
  {
    FilterEntry(MultiplicationFilter, Some(Multiplication(format, factor)))
  }

  /** The last entry's kind, and so in a sorted chain every entry's kind, has a priority below p. */
  ghost predicate Below(filters: seq<FilterEntry>, p: nat)
  {
    |filters| == 0 || Priority(filters[|filters| - 1].index) < p
  }

  /** What appending one entry does to the chain invariants. */
  lemma AppendFacts(f: seq<FilterEntry>, e: FilterEntry)
    ensures Sorted(f) && Below(f, Priority(e.index)) ==> Sorted(f + [e])
    ensures Below(f, Priority(e.index)) ==> Below(f + [e], Priority(e.index) + 1)
    ensures WellTagged(f) && Tagged(e) ==> WellTagged(f + [e])
    ensures NoNullStage(f + [e]) <==> NoNullStage(f) && e.stage.Some?
  {
    var r := f + [e];
    assert r[|f|] == e;
    if !NoNullStage(f) {
      var i :| 0 <= i < |f| && f[i].stage.None?;
      assert r[i].stage.None?;
    }
  }

  /** Appending an entry adds its kind and no other to the kinds the chain has. */
  lemma PushIfHas(f: seq<FilterEntry>, present: bool, e: FilterEntry, k: FilterIndex)
    ensures Has(PushIf(f, present, e), k) <==> Has(f, k) || (present && e.index == k)
  {
    if present {
      var r := f + [e];
      assert r[|f|].index == e.index;
      if Has(f, k) {
        var i :| 0 <= i < |f| && f[i].index == k;
        assert r[i].index == k;
      }
      if Has(r, k) && !Has(f, k) {
        var i :| 0 <= i < |r| && r[i].index == k;
        assert i == |f|;
      }
    }
  }

  /** One `if (...) filters.push_back(...)` of `allocate_filters`. */
  function PushIf(f: seq<FilterEntry>, present: bool, e: FilterEntry): seq<FilterEntry>
  {
    if present then f + [e] else f
  }

  /** A push keeps the chain sorted, well tagged and free of null stages when the entry allows it. */
  lemma PushIfKeeps(f: seq<FilterEntry>, present: bool, e: FilterEntry)
    ensures Sorted(f) && Below(f, Priority(e.index)) ==>
      Sorted(PushIf(f, present, e)) && Below(PushIf(f, present, e), Priority(e.index) + 1)
    ensures WellTagged(f) && Tagged(e) ==> WellTagged(PushIf(f, present, e))
    ensures NoNullStage(PushIf(f, present, e)) <==> NoNullStage(f) && (present ==> e.stage.Some?)
  {
    if present {
      AppendFacts(f, e);
    }
  }

  // The entries `allocate_filters` may push, in push order.
  function SignednessEntry(src: AudioFormat, dst: AudioFormat): FilterEntry
  {
    FilterEntry(SignednessFilter, Some(Signedness(src, AfterSignedness(src, dst))))
  }

  function BitShiftingEntry(src: AudioFormat, dst: AudioFormat): FilterEntry
  {
    FilterEntry(BitShiftingFilter, Some(BitShifting(src, AfterBitShifting(src, dst))))
  }

  function ResamplingEntry(src: AudioFormat, dst: AudioFormat): FilterEntry
  {
    FilterEntry(ResamplingFilter, Some(Resampling(src, AfterResampling(src, dst))))
  }

  /** The stages pushed before the gain stage: signedness, bit shifting and channel mixing. */
  function LowerStages(src: AudioFormat, dst: AudioFormat): (r: seq<FilterEntry>)
    ensures Sorted(r) && WellTagged(r) && Below(r, Priority(MultiplicationFilter))
    ensures NoNullStage(r) <==> !(src.channels != dst.channels && dst.channels != 1 && dst.channels != 2)
  {
    var e1, e2, e3 := SignednessEntry(src, dst), BitShiftingEntry(src, dst), MixingEntry(src, AfterMixing(src, dst));
    var r1 := PushIf([], src.isSigned != dst.isSigned, e1);
    var r2 := PushIf(r1, src.bytesPerChannel != dst.bytesPerChannel, e2);
    assert Tagged(e1) && Tagged(e2) && e1.stage.Some? && e2.stage.Some?;
    assert AfterMixing(src, dst).channels == dst.channels;
    assert src.channels != dst.channels ==> (e3.stage.None? <==> dst.channels != 1 && dst.channels != 2);
    PushIfKeeps([], src.isSigned != dst.isSigned, e1);
    assert Sorted(r1) && WellTagged(r1) && NoNullStage(r1) && Below(r1, Priority(e2.index));
    PushIfKeeps(r1, src.bytesPerChannel != dst.bytesPerChannel, e2);
    assert Sorted(r2) && WellTagged(r2) && NoNullStage(r2) && Below(r2, Priority(e3.index));
    PushIfKeeps(r2, src.channels != dst.channels, e3);
    PushIf(r2, src.channels != dst.channels, e3)
  }

  /**
   * The chain `allocate_filters` appends: one stage per field that differs, and a gain
   * stage when the multiplier is not unity, in priority order. Each conversion stage is
   * told the decoder's format as its input and the partly converted format as its
   * output; the gain stage is told the format after channel mixing.
   */
  function RequiredStages(src: AudioFormat, dst: AudioFormat, multiplier: real): (r: seq<FilterEntry>)
    ensures Sorted(r) && WellTagged(r)
  {
    var lower := LowerStages(src, dst);
    var gain := GainEntry(AfterMixing(src, dst), multiplier);
    var r4 := PushIf(lower, multiplier != 1.0, gain);
    var last := ResamplingEntry(src, dst);
    assert Tagged(gain) && Tagged(last);
    PushIfKeeps(lower, multiplier != 1.0, gain);
    assert Sorted(r4) && WellTagged(r4) && Below(r4, Priority(last.index));
    PushIfKeeps(r4, src.freq != dst.freq, last);
    PushIf(r4, src.freq != dst.freq, last)
  }

  /** Pushing the stages one by one onto an existing chain appends `RequiredStages` to it. */
  lemma RequiredStagesAppended(before: seq<FilterEntry>, src: AudioFormat, dst: AudioFormat, multiplier: real)
    ensures PushIf(PushIf(PushIf(PushIf(PushIf(before,
        src.isSigned != dst.isSigned, SignednessEntry(src, dst)),
        src.bytesPerChannel != dst.bytesPerChannel, BitShiftingEntry(src, dst)),
        src.channels != dst.channels, MixingEntry(src, AfterMixing(src, dst))),
        multiplier != 1.0, GainEntry(AfterMixing(src, dst), multiplier)),
        src.freq != dst.freq, ResamplingEntry(src, dst))
      == before + RequiredStages(src, dst, multiplier)
  {
    var r1 := PushIf([], src.isSigned != dst.isSigned, SignednessEntry(src, dst));
    var r2 := PushIf(r1, src.bytesPerChannel != dst.bytesPerChannel, BitShiftingEntry(src, dst));
    var r3 := PushIf(r2, src.channels != dst.channels, MixingEntry(src, AfterMixing(src, dst)));
    var r4 := PushIf(r3, multiplier != 1.0, GainEntry(AfterMixing(src, dst), multiplier));
    assert r3 == LowerStages(src, dst);
    assert before + [] == before;
    var b1 := PushIf(before, src.isSigned != dst.isSigned, SignednessEntry(src, dst));
    PushIfAppended(before, [], src.isSigned != dst.isSigned, SignednessEntry(src, dst));
    assert b1 == before + r1;
    var b2 := PushIf(b1, src.bytesPerChannel != dst.bytesPerChannel, BitShiftingEntry(src, dst));
    PushIfAppended(before, r1, src.bytesPerChannel != dst.bytesPerChannel, BitShiftingEntry(src, dst));
    assert b2 == before + r2;
    var b3 := PushIf(b2, src.channels != dst.channels, MixingEntry(src, AfterMixing(src, dst)));
    PushIfAppended(before, r2, src.channels != dst.channels, MixingEntry(src, AfterMixing(src, dst)));
    assert b3 == before + r3;
    var b4 := PushIf(b3, multiplier != 1.0, GainEntry(AfterMixing(src, dst), multiplier));
    PushIfAppended(before, r3, multiplier != 1.0, GainEntry(AfterMixing(src, dst), multiplier));
    assert b4 == before + r4;
    PushIfAppended(before, r4, src.freq != dst.freq, ResamplingEntry(src, dst));
  }

  /** A push onto a chain with a prefix is the push onto the rest, behind the prefix. */
  lemma PushIfAppended(before: seq<FilterEntry>, f: seq<FilterEntry>, present: bool, e: FilterEntry)
    ensures PushIf(before + f, present, e) == before + PushIf(f, present, e)
  {
    if present {
      assert before + f + [e] == before + (f + [e]);
    } else {
      assert before + f == before + f;
    }
  }

  /** A kind of stage is in the chain exactly when the field it converts differs. */
  lemma RequiredStagesKinds(src: AudioFormat, dst: AudioFormat, multiplier: real)
    ensures forall k :: Has(RequiredStages(src, dst, multiplier), k) <==> Differs(k, src, dst, multiplier)
  {
    forall k ensures Has(RequiredStages(src, dst, multiplier), k) <==> Differs(k, src, dst, multiplier) {
      RequiredStagesKind(src, dst, multiplier, k);
    }
  }

  lemma RequiredStagesKind(src: AudioFormat, dst: AudioFormat, multiplier: real, k: FilterIndex)
    ensures Has(RequiredStages(src, dst, multiplier), k) <==> Differs(k, src, dst, multiplier)
  {
    var r1 := PushIf([], src.isSigned != dst.isSigned, SignednessEntry(src, dst));
    var r2 := PushIf(r1, src.bytesPerChannel != dst.bytesPerChannel, BitShiftingEntry(src, dst));
    var r3 := PushIf(r2, src.channels != dst.channels, MixingEntry(src, AfterMixing(src, dst)));
    var r4 := PushIf(r3, multiplier != 1.0, GainEntry(AfterMixing(src, dst), multiplier));
    assert r3 == LowerStages(src, dst);
    PushIfHas([], src.isSigned != dst.isSigned, SignednessEntry(src, dst), k);
    PushIfHas(r1, src.bytesPerChannel != dst.bytesPerChannel, BitShiftingEntry(src, dst), k);
    PushIfHas(r2, src.channels != dst.channels, MixingEntry(src, AfterMixing(src, dst)), k);
    PushIfHas(r3, multiplier != 1.0, GainEntry(AfterMixing(src, dst), multiplier), k);
    PushIfHas(r4, src.freq != dst.freq, ResamplingEntry(src, dst), k);
  }

  /**
   * The chain holds a null stage exactly when the channel counts differ and the
   * destination has neither one nor two channels, the counts no mixer handles.
   */
  lemma RequiredStagesNullStage(src: AudioFormat, dst: AudioFormat, multiplier: real)
    ensures NoNullStage(RequiredStages(src, dst, multiplier)) <==>
      !(src.channels != dst.channels && dst.channels != 1 && dst.channels != 2)
  {
    var lower := LowerStages(src, dst);
    var r4 := PushIf(lower, multiplier != 1.0, GainEntry(AfterMixing(src, dst), multiplier));
    PushIfKeeps(lower, multiplier != 1.0, GainEntry(AfterMixing(src, dst), multiplier));
    PushIfKeeps(r4, src.freq != dst.freq, ResamplingEntry(src, dst));
  }

  /** The chain is empty exactly when the formats agree and the gain is unity: `dont_convert`. */
  lemma RequiredStagesEmpty(src: AudioFormat, dst: AudioFormat, multiplier: real)
    ensures RequiredStages(src, dst, multiplier) == [] <==> src == dst && multiplier == 1.0
  {
    var r := RequiredStages(src, dst, multiplier);
    RequiredStagesKinds(src, dst, multiplier);
    if r != [] {
      assert Has(r, r[|r| - 1].index);
    }
  }

  // ---------------------------------------------------------------------------
  // Reading: look-ahead, sizing and the stage run
  // ---------------------------------------------------------------------------

  /**
   * The buffers `read` starts from: the buffer saved by the previous call, unless this
   * is the first call or nothing was saved.
   */
  function LookAheadStart(needTwoBuffers: bool, saved: AudioBuffer): (r: seq<AudioBuffer>)
    ensures |r| <= 1
    ensures r == [] <==> needTwoBuffers || IsEmpty(saved)
    ensures forall b :: b in r ==> !IsEmpty(b)
  {
    if !needTwoBuffers && !IsEmpty(saved) then [saved] else []
  }

  /**
   * The gathering loop: decoder buffers (`pending`, in decoding order) are appended
   * to `buffers` until two are held or the decoder hands out an empty buffer. The
   * result is the gathered buffers and what the decoder still holds; an empty buffer
   * that stopped the loop is consumed, and a decoder with nothing left keeps returning
   * empty buffers.
   */
  function Gather(buffers: seq<AudioBuffer>, pending: seq<AudioBuffer>): (seq<AudioBuffer>, seq<AudioBuffer>)
    requires |buffers| <= 2
    decreases 2 - |buffers|
  {
    if |buffers| == 2 then (buffers, pending)
    else if pending == [] then (buffers, [])
    else if IsEmpty(pending[0]) then (buffers, pending[1..])
    else Gather(buffers + [pending[0]], pending[1..])
  }

  /**
   * Gathering keeps the buffers already held and appends the decoder's next buffers in
   * order, all of them non-empty; it stops at two buffers, leaving the rest with the
   * decoder, or earlier for the reason `Stopped` gives.
   */
  lemma {:induction false} GatherTakesInOrder(buffers: seq<AudioBuffer>, pending: seq<AudioBuffer>)
    requires |buffers| <= 2
    ensures var r := Gather(buffers, pending);
      && |buffers| <= |r.0| <= 2 && |r.0| - |buffers| <= |pending|
      && r.0 == buffers + pending[..|r.0| - |buffers|]
      && (forall i :: |buffers| <= i < |r.0| ==> !IsEmpty(r.0[i]))
      && (|r.0| == 2 ==> r.0 + r.1 == buffers + pending)
      && (|r.0| < 2 ==> Stopped(pending, |r.0| - |buffers|, r.1))
    decreases 2 - |buffers|
  {
    if |buffers| < 2 && pending != [] && !IsEmpty(pending[0]) {
      var next := buffers + [pending[0]];
      GatherTakesInOrder(next, pending[1..]);
      var r := Gather(next, pending[1..]);
      var n := |r.0| - |buffers|;
      assert pending[1..][..n - 1] == pending[1..n];
      assert pending[..n] == [pending[0]] + pending[1..n];
      assert pending == [pending[0]] + pending[1..];
      if |r.0| < 2 && n - 1 < |pending[1..]| {
        assert pending[1..][n - 1 + 1..] == pending[n + 1..];
      }
    } else if |buffers| == 2 {
      assert pending[..0] == [];
    } else {
      assert pending[..0] == [];
    }
  }

  /**
   * Why gathering stopped short after taking `n` buffers: the decoder had nothing more
   * (and still has nothing), or its next buffer was empty and has been consumed.
   */
  ghost predicate Stopped(pending: seq<AudioBuffer>, n: nat, rest: seq<AudioBuffer>)
  {
    (n == |pending| && rest == []) || (n < |pending| && IsEmpty(pending[n]) && rest == pending[n + 1..])
  }

  /** The byte size the chain reaches from `input` bytes: each non-null stage's requirement in turn. */
  function ChainedBytes(filters: seq<FilterEntry>, input: nat, requiredBytes: (Stage, nat) -> nat): nat
  {
    if filters == [] then input
    else
      var before := ChainedBytes(filters[..|filters| - 1], input, requiredBytes);
      match filters[|filters| - 1].stage
      case None => before
      case Some(stage) => requiredBytes(stage, before)
  }

  /** The largest byte size seen while chaining, starting with the input's own size. */
  function MaxRequired(filters: seq<FilterEntry>, input: nat, requiredBytes: (Stage, nat) -> nat): (m: nat)
    ensures m >= input && m >= ChainedBytes(filters, input, requiredBytes)
  {
    if filters == [] then input
    else
      var before := MaxRequired(filters[..|filters| - 1], input, requiredBytes);
      match filters[|filters| - 1].stage
      case None => before
      case Some(_) =>
        var bytes := ChainedBytes(filters, input, requiredBytes);
        if bytes > before then bytes else before
  }

  /**
   * The working buffer is large enough for every stage: `MaxRequired` is at least the
   * size after every prefix of the chain, and it is the size after one of them.
   */
  lemma {:induction false} MaxRequiredIsMaximum(filters: seq<FilterEntry>, input: nat, requiredBytes: (Stage, nat) -> nat)
    ensures forall k :: 0 <= k <= |filters| ==>
      ChainedBytes(filters[..k], input, requiredBytes) <= MaxRequired(filters, input, requiredBytes)
    ensures exists k ::
      0 <= k <= |filters| && ChainedBytes(filters[..k], input, requiredBytes) == MaxRequired(filters, input, requiredBytes)
    decreases |filters|
  {
    var m := MaxRequired(filters, input, requiredBytes);
    if filters == [] {
      assert filters[..0] == filters;
    } else {
      var front := filters[..|filters| - 1];
      MaxRequiredIsMaximum(front, input, requiredBytes);
      forall k | 0 <= k <= |filters|
        ensures ChainedBytes(filters[..k], input, requiredBytes) <= m
      {
        if k == |filters| {
          assert filters[..k] == filters;
        } else {
          assert filters[..k] == front[..k];
        }
      }
      var k :| 0 <= k <= |front| && ChainedBytes(front[..k], input, requiredBytes) == MaxRequired(front, input, requiredBytes);
      assert front[..k] == filters[..k];
      assert filters[..|filters|] == filters;
    }
  }

  /**
   * The corrected stage run: every non-null stage in chain order rewrites the working
   * buffer, given the look-ahead buffers as well; null stages are skipped, as the sizing
   * loop skips them.
   */
  function ApplyChain(filters: seq<FilterEntry>, working: AudioBuffer, lookAhead: seq<AudioBuffer>,
                      runStage: (Stage, AudioBuffer, seq<AudioBuffer>) -> AudioBuffer): AudioBuffer
  {
    if filters == [] then working
    else
      var before := ApplyChain(filters[..|filters| - 1], working, lookAhead, runStage);
      match filters[|filters| - 1].stage
      case None => before
      case Some(stage) => runStage(stage, before, lookAhead)
  }

  /**
   * The stage run as written: every entry's stage is called, so a null stage is a null
   * dereference (`None`, the process fails).
   */
  function ApplyChainAsWritten(filters: seq<FilterEntry>, working: AudioBuffer, lookAhead: seq<AudioBuffer>,
                               runStage: (Stage, AudioBuffer, seq<AudioBuffer>) -> AudioBuffer): Option<AudioBuffer>
  {
    if filters == [] then Some(working)
    else
      match ApplyChainAsWritten(filters[..|filters| - 1], working, lookAhead, runStage)
      case None => None
      case Some(before) =>
        match filters[|filters| - 1].stage
        case None => None
        case Some(stage) => Some(runStage(stage, before, lookAhead))
  }

  /** The run as written fails exactly on a chain with a null stage, and otherwise agrees with the corrected run. */
  lemma {:induction false} ApplyChainAsWrittenFailsOnNull(filters: seq<FilterEntry>, working: AudioBuffer,
      lookAhead: seq<AudioBuffer>, runStage: (Stage, AudioBuffer, seq<AudioBuffer>) -> AudioBuffer)
    ensures ApplyChainAsWritten(filters, working, lookAhead, runStage) ==
      if NoNullStage(filters) then Some(ApplyChain(filters, working, lookAhead, runStage)) else None
    decreases |filters|
  {
    if filters != [] {
      var front := filters[..|filters| - 1];
      ApplyChainAsWrittenFailsOnNull(front, working, lookAhead, runStage);
      assert NoNullStage(filters) <==> NoNullStage(front) && filters[|filters| - 1].stage.Some? by {
        if NoNullStage(front) && filters[|filters| - 1].stage.Some? {
          forall i | 0 <= i < |filters| ensures filters[i].stage.Some? {
            if i < |front| {
              assert filters[i] == front[i];
            }
          }
        }
      }
    }
  }

  /**
   * A stereo stream played on a six-channel device: the chain holds only the null
   * channel-mixing entry, so the stage run as written dereferences it on every read
   * that converts.
   */
  lemma SixChannelDeviceFailsAsWritten(working: AudioBuffer, lookAhead: seq<AudioBuffer>,
      runStage: (Stage, AudioBuffer, seq<AudioBuffer>) -> AudioBuffer)
    ensures ApplyChainAsWritten(RequiredStages(AudioFormat(2, 2, 44100, true), AudioFormat(2, 6, 44100, true), 1.0),
      working, lookAhead, runStage) == None
    ensures ApplyChain(RequiredStages(AudioFormat(2, 2, 44100, true), AudioFormat(2, 6, 44100, true), 1.0),
      working, lookAhead, runStage) == working
  {
    SixChannelChain();
    var f := [FilterEntry(ChannelMixingFilter, None)];
    assert f[..0] == [];
  }

  /** Stereo to six channels: the chain is the null channel-mixing entry alone. */
  lemma SixChannelChain()
    ensures RequiredStages(AudioFormat(2, 2, 44100, true), AudioFormat(2, 6, 44100, true), 1.0)
      == [FilterEntry(ChannelMixingFilter, None)]
  {
    assert ChannelMixing.Create(2, 6) == None;
    assert LowerStages(AudioFormat(2, 2, 44100, true), AudioFormat(2, 6, 44100, true))
      == [FilterEntry(ChannelMixingFilter, None)];
  }

  /**
   * What `read` returns for the gathered buffers: nothing gathered gives the empty
   * buffer; an empty first buffer or a passthrough chain gives the first buffer itself;
   * otherwise the first buffer, enlarged to the chain's largest requirement, run
   * through the chain with the second buffer as look-ahead.
   */
  function Converted(buffers: seq<AudioBuffer>, filters: seq<FilterEntry>, dontConvert: bool,
                     requiredBytes: (Stage, nat) -> nat,
                     runStage: (Stage, AudioBuffer, seq<AudioBuffer>) -> AudioBuffer): AudioBuffer
  {
    if buffers == [] then EmptyBuffer
    else if IsEmpty(buffers[0]) || dontConvert then buffers[0]
    else
      var working := CloneWithMinimumByteLength(buffers[0], MaxRequired(filters, buffers[0].byteLength, requiredBytes));
      ApplyChain(filters, working, buffers[1..], runStage)
  }

  /** With no stage in the chain the result only differs from the first buffer by its storage size. */
  lemma ConvertedEmptyChain(buffers: seq<AudioBuffer>, dontConvert: bool, requiredBytes: (Stage, nat) -> nat,
      runStage: (Stage, AudioBuffer, seq<AudioBuffer>) -> AudioBuffer)
    requires buffers != []
    ensures var r := Converted(buffers, [], dontConvert, requiredBytes, runStage);
      r.data == buffers[0].data && r.samples == buffers[0].samples && r.byteLength == buffers[0].byteLength
  {
  }

  // ---------------------------------------------------------------------------
  // Inserting a gain stage after allocation
  // ---------------------------------------------------------------------------

  /**
   * Where the search loop of `add_multiplication_filter` stops: the first entry whose
   * kind is not below the gain stage's, or the end of the chain. `index + 1` in the code.
   */
  function GainPosition(filters: seq<FilterEntry>): (n: nat)
    ensures n <= |filters|
    ensures forall j :: 0 <= j < n ==> Priority(filters[j].index) < Priority(MultiplicationFilter)
    ensures n < |filters| ==> Priority(filters[n].index) >= Priority(MultiplicationFilter)
  {
    if filters == [] || Priority(filters[0].index) >= Priority(MultiplicationFilter) then 0
    else 1 + GainPosition(filters[1..])
  }

  /** The three properties of `GainPosition` pin the position down. */
  lemma GainPositionUnique(filters: seq<FilterEntry>, n: nat)
    requires n <= |filters|
    requires forall j :: 0 <= j < n ==> Priority(filters[j].index) < Priority(MultiplicationFilter)
    requires n < |filters| ==> Priority(filters[n].index) >= Priority(MultiplicationFilter)
    ensures GainPosition(filters) == n
  {
  }

  /**
   * The format of the samples that leave a chain prefix: what its last non-null stage
   * produces, or the decoder's format when it has none.
   */
  function FormatReaching(prefix: seq<FilterEntry>, decoderFormat: AudioFormat): AudioFormat
  {
    if prefix == [] then decoderFormat
    else match prefix[|prefix| - 1].stage
      case Some(stage) => OutputFormat(stage)
      case None => FormatReaching(prefix[..|prefix| - 1], decoderFormat)
  }

  /** Without a null mixing stage, the lower stages deliver the format after channel mixing. */
  lemma LowerStagesFormat(src: AudioFormat, dst: AudioFormat)
    requires src.channels == dst.channels || dst.channels == 1 || dst.channels == 2
    ensures FormatReaching(LowerStages(src, dst), src) == AfterMixing(src, dst)
  {
    var r1 := PushIf([], src.isSigned != dst.isSigned, SignednessEntry(src, dst));
    var r2 := PushIf(r1, src.bytesPerChannel != dst.bytesPerChannel, BitShiftingEntry(src, dst));
    assert FormatReaching(r1, src) == AfterSignedness(src, dst) by {
      if src.isSigned != dst.isSigned {
        assert r1[..0] == [];
      }
    }
    assert FormatReaching(r2, src) == AfterBitShifting(src, dst) by {
      if src.bytesPerChannel != dst.bytesPerChannel {
        assert r2[..|r1|] == r1;
      }
    }
    var r3 := PushIf(r2, src.channels != dst.channels, MixingEntry(src, AfterMixing(src, dst)));
    if src.channels != dst.channels {
      assert r3[..|r2|] == r2;
    }
  }

  /**
   * The corrected `add_multiplication_filter` on the chain: nothing happens when the
   * search finds a gain stage; otherwise a gain stage, told the format of the samples
   * reaching it, is inserted where the search stopped.
   */
  function AddGain(filters: seq<FilterEntry>, decoderFormat: AudioFormat, factor: real): seq<FilterEntry>
  {
    var n := GainPosition(filters);
    if n < |filters| && filters[n].index == MultiplicationFilter then filters
    else filters[..n] + [GainEntry(FormatReaching(filters[..n], decoderFormat), factor)] + filters[n..]
  }

  /**
   * `add_multiplication_filter` as written: the new stage is told the preceding stage's
   * `get_src_format` (every allocated stage was told the decoder's format), and a null
   * preceding stage is dereferenced (`None`, the process fails).
   */
  function AddMultiplicationAsWritten(filters: seq<FilterEntry>, decoderFormat: AudioFormat, factor: real)
    : Option<seq<FilterEntry>>
  {
    var n := GainPosition(filters);
    if n < |filters| && filters[n].index == MultiplicationFilter then Some(filters)
    else if n == 0 then Some([GainEntry(decoderFormat, factor)] + filters)
    else match filters[n - 1].stage
      case None => None
      case Some(stage) => Some(filters[..n] + [GainEntry(SrcFormat(stage), factor)] + filters[n..])
  }

  /** Adding a gain stage twice is adding it once, whatever the second factor. */
  lemma AddGainIdempotent(filters: seq<FilterEntry>, decoderFormat: AudioFormat, factor: real, again: real)
    ensures AddGain(AddGain(filters, decoderFormat, factor), decoderFormat, again) == AddGain(filters, decoderFormat, factor)
  {
    var n := GainPosition(filters);
    var r := AddGain(filters, decoderFormat, factor);
    if r != filters {
      assert r[n].index == MultiplicationFilter;
      forall j | 0 <= j < n ensures Priority(r[j].index) < Priority(MultiplicationFilter) {
        assert r[j] == filters[j];
      }
      GainPositionUnique(r, n);
    }
  }

  /**
   * On a sorted chain: with a gain stage present nothing changes; without one exactly one
   * gain stage is inserted after the lower-priority stages, the rest keep their order,
   * and the chain stays sorted.
   */
  lemma AddGainInsertsOnce(filters: seq<FilterEntry>, decoderFormat: AudioFormat, factor: real)
    requires Sorted(filters)
    ensures Has(filters, MultiplicationFilter) ==> AddGain(filters, decoderFormat, factor) == filters
    ensures !Has(filters, MultiplicationFilter) ==>
      var n := GainPosition(filters);
      var r := AddGain(filters, decoderFormat, factor);
      && |r| == |filters| + 1
      && r[..n] == filters[..n] && r[n + 1..] == filters[n..]
      && r[n].index == MultiplicationFilter && r[n].stage.Some?
    ensures Sorted(AddGain(filters, decoderFormat, factor))
    ensures Has(AddGain(filters, decoderFormat, factor), MultiplicationFilter)
  {
    if Has(filters, MultiplicationFilter) {
      GainPresentKept(filters, decoderFormat, factor);
    } else {
      GainAbsentInserted(filters, decoderFormat, factor);
    }
  }

  /** Inserting a gain stage keeps a sorted chain sorted, and leaves a gain stage in it. */
  lemma AddGainKeepsSorted(filters: seq<FilterEntry>, decoderFormat: AudioFormat, factor: real)
    requires Sorted(filters)
    ensures Sorted(AddGain(filters, decoderFormat, factor)) && Has(AddGain(filters, decoderFormat, factor), MultiplicationFilter)
  {
    AddGainInsertsOnce(filters, decoderFormat, factor);
  }

  lemma GainPresentKept(filters: seq<FilterEntry>, decoderFormat: AudioFormat, factor: real)
    requires Sorted(filters) && Has(filters, MultiplicationFilter)
    ensures AddGain(filters, decoderFormat, factor) == filters
  {
    var i :| 0 <= i < |filters| && filters[i].index == MultiplicationFilter;
    forall j | 0 <= j < i ensures Priority(filters[j].index) < Priority(MultiplicationFilter) {
      SortedIsStrictlyIncreasing(filters, j, i);
    }
    GainPositionUnique(filters, i);
  }

  lemma GainAbsentInserted(filters: seq<FilterEntry>, decoderFormat: AudioFormat, factor: real)
    requires Sorted(filters) && !Has(filters, MultiplicationFilter)
    ensures var n := GainPosition(filters);
      var r := AddGain(filters, decoderFormat, factor);
      && |r| == |filters| + 1
      && r[..n] == filters[..n] && r[n + 1..] == filters[n..]
      && r[n].index == MultiplicationFilter && r[n].stage.Some?
      && Sorted(r) && Has(r, MultiplicationFilter)
  {
    var n := GainPosition(filters);
    var r := AddGain(filters, decoderFormat, factor);
    if n < |filters| {
      assert filters[n].index != MultiplicationFilter;
    }
    assert r[n].index == MultiplicationFilter;
    assert r[..n] == filters[..n];
    assert r[n + 1..] == filters[n..];
    forall i | 0 < i < |r| ensures Priority(r[i - 1].index) < Priority(r[i].index) {
      if i < n {
        assert r[i - 1] == filters[i - 1] && r[i] == filters[i];
      } else if i > n + 1 {
        assert r[i - 1] == filters[i - 2] && r[i] == filters[i - 1];
      }
    }
  }

  /**
   * Inserting the gain stage after allocation gives the chain allocation would have
   * built with that gain, whenever no null mixing stage sits in the chain.
   */
  lemma AddGainMatchesAllocation(src: AudioFormat, dst: AudioFormat, factor: real)
    requires factor != 1.0
    requires src.channels == dst.channels || dst.channels == 1 || dst.channels == 2
    ensures AddGain(RequiredStages(src, dst, 1.0), src, factor) == RequiredStages(src, dst, factor)
  {
    var lower := LowerStages(src, dst);
    var tail := Resampled(src, dst);
    RequiredStagesShape(src, dst, 1.0);
    RequiredStagesShape(src, dst, factor);
    LowerStagesFormat(src, dst);
    GainAfterLowerStages(lower, tail, src, factor);
  }

  /** A gain stage goes between the stages sorting below it and those sorting above it. */
  lemma GainAfterLowerStages(lower: seq<FilterEntry>, tail: seq<FilterEntry>, src: AudioFormat, factor: real)
    requires Sorted(lower) && Below(lower, Priority(MultiplicationFilter))
    requires forall j :: 0 <= j < |tail| ==> Priority(tail[j].index) > Priority(MultiplicationFilter)
    ensures AddGain(lower + tail, src, factor) == lower + [GainEntry(FormatReaching(lower, src), factor)] + tail
  {
    var unity := lower + tail;
    SortedBelow(lower, Priority(MultiplicationFilter));
    forall j | 0 <= j < |lower| ensures Priority(unity[j].index) < Priority(MultiplicationFilter) {
      assert unity[j] == lower[j];
    }
    if |tail| > 0 {
      assert unity[|lower|] == tail[0];
    }
    GainPositionUnique(unity, |lower|);
    assert unity[..|lower|] == lower && unity[|lower|..] == tail;
  }

  /** The chain is the lower stages, then the gain stage if any, then the resampler if any. */
  lemma RequiredStagesShape(src: AudioFormat, dst: AudioFormat, multiplier: real)
    ensures multiplier == 1.0 ==> RequiredStages(src, dst, multiplier) == LowerStages(src, dst) + Resampled(src, dst)
    ensures multiplier != 1.0 ==>
      RequiredStages(src, dst, multiplier)
        == LowerStages(src, dst) + [GainEntry(AfterMixing(src, dst), multiplier)] + Resampled(src, dst)
  {
    if src.freq == dst.freq && multiplier == 1.0 {
      assert LowerStages(src, dst) + [] == LowerStages(src, dst);
    }
  }

  /** The resampling stage, present when the rates differ. */
  function Resampled(src: AudioFormat, dst: AudioFormat): (tail: seq<FilterEntry>)
    ensures forall j :: 0 <= j < |tail| ==> Priority(tail[j].index) > Priority(MultiplicationFilter)
  {
    if src.freq != dst.freq then [ResamplingEntry(src, dst)] else []
  }

  /** In a sorted chain whose last kind is below p, every kind is below p. */
  lemma SortedBelow(filters: seq<FilterEntry>, p: nat)
    requires Sorted(filters) && Below(filters, p)
    ensures forall j :: 0 <= j < |filters| ==> Priority(filters[j].index) < p
  {
    forall j | 0 <= j < |filters| - 1 ensures Priority(filters[j].index) < p {
      SortedIsStrictlyIncreasing(filters, j, |filters| - 1);
    }
  }

  /**
   * Mono unsigned 8-bit on a stereo signed 16-bit device, gain added afterwards: the
   * code as written tells the gain stage the decoder's format, whereas allocation with
   * the same gain tells it the converted format.
   */
  lemma GainFormatAsWritten()
    ensures var src := AudioFormat(1, 1, 44100, false);
      var dst := AudioFormat(2, 2, 44100, true);
      && AddMultiplicationAsWritten(RequiredStages(src, dst, 1.0), src, 2.0) != Some(RequiredStages(src, dst, 2.0))
      && AddGain(RequiredStages(src, dst, 1.0), src, 2.0) == RequiredStages(src, dst, 2.0)
  {
    var src := AudioFormat(1, 1, 44100, false);
    var dst := AudioFormat(2, 2, 44100, true);
    AddGainMatchesAllocation(src, dst, 2.0);
    var unity := RequiredStages(src, dst, 1.0);
    assert |unity| == 3;
    GainPositionUnique(unity, 3);
    var asWritten := AddMultiplicationAsWritten(unity, src, 2.0);
    assert asWritten.value[3] == GainEntry(src, 2.0);
    assert RequiredStages(src, dst, 2.0)[3] == GainEntry(AfterMixing(src, dst), 2.0);
  }

  /**
   * A device whose channel count no mixer produces (six channels from stereo, say), all
   * other fields equal, gain added afterwards: the stage before the gain position is the
   * null mixing entry, which the code as written dereferences; the corrected insertion
   * puts the gain stage after it, told the decoder's format.
   */
  lemma GainAfterNullStageFailsAsWritten(src: AudioFormat, dst: AudioFormat, factor: real)
    requires src.channels != dst.channels && dst.channels != 1 && dst.channels != 2
    requires src.isSigned == dst.isSigned && src.bytesPerChannel == dst.bytesPerChannel && src.freq == dst.freq
    ensures RequiredStages(src, dst, 1.0) == [FilterEntry(ChannelMixingFilter, None)]
    ensures AddMultiplicationAsWritten(RequiredStages(src, dst, 1.0), src, factor) == None
    ensures AddGain(RequiredStages(src, dst, 1.0), src, factor)
         == [FilterEntry(ChannelMixingFilter, None), GainEntry(src, factor)]
  {
    NullMixingChain(src, dst);
    GainAfterNullMixing(src, factor);
  }

  /** With only the channel counts differing, and no mixer for them, the chain is the null mixing entry alone. */
  lemma NullMixingChain(src: AudioFormat, dst: AudioFormat)
    requires src.channels != dst.channels && dst.channels != 1 && dst.channels != 2
    requires src.isSigned == dst.isSigned && src.bytesPerChannel == dst.bytesPerChannel && src.freq == dst.freq
    ensures RequiredStages(src, dst, 1.0) == [FilterEntry(ChannelMixingFilter, None)]
  {
    assert ChannelMixing.Create(src.channels, dst.channels) == None;
    assert LowerStages(src, dst) == [FilterEntry(ChannelMixingFilter, None)];
  }

  /** A chain holding only a null mixing entry gets the gain stage after it. */
  lemma GainAfterNullMixing(src: AudioFormat, factor: real)
    ensures AddMultiplicationAsWritten([FilterEntry(ChannelMixingFilter, None)], src, factor) == None
    ensures AddGain([FilterEntry(ChannelMixingFilter, None)], src, factor)
         == [FilterEntry(ChannelMixingFilter, None), GainEntry(src, factor)]
  {
    var unity := [FilterEntry(ChannelMixingFilter, None)];
    GainPositionUnique(unity, 1);
    assert unity[..1] == unity && unity[1..] == [];
    assert FormatReaching(unity[..1], src) == src;
  }

  /**
   * A gain stage added before a lazily allocating decoder's first `read`: the chain is
   * that stage alone, and `allocate_filters` pushes its own stages behind it. The result
   * is sorted only when no signedness, bit-shifting, mixing or second gain stage is
   * pushed; with a multiplier other than 1.0 the chain holds two gain stages.
   */
  lemma GainBeforeLazyAllocation(src: AudioFormat, dst: AudioFormat, factor: real, multiplier: real)
    ensures AddGain([], src, factor) == [GainEntry(src, factor)]
    ensures var chain := [GainEntry(src, factor)] + RequiredStages(src, dst, multiplier);
      Sorted(chain) <==>
        src.isSigned == dst.isSigned && src.bytesPerChannel == dst.bytesPerChannel
        && src.channels == dst.channels && multiplier == 1.0
    ensures multiplier != 1.0 ==> Has(RequiredStages(src, dst, multiplier), MultiplicationFilter)
  {
    var r := RequiredStages(src, dst, multiplier);
    RequiredStagesKinds(src, dst, multiplier);
    assert Has(r, SignednessFilter) <==> src.isSigned != dst.isSigned by {
      assert Differs(SignednessFilter, src, dst, multiplier) <==> src.isSigned != dst.isSigned;
    }
    assert Has(r, BitShiftingFilter) <==> src.bytesPerChannel != dst.bytesPerChannel by {
      assert Differs(BitShiftingFilter, src, dst, multiplier) <==> src.bytesPerChannel != dst.bytesPerChannel;
    }
    assert Has(r, ChannelMixingFilter) <==> src.channels != dst.channels by {
      assert Differs(ChannelMixingFilter, src, dst, multiplier) <==> src.channels != dst.channels;
    }
    assert Has(r, MultiplicationFilter) <==> multiplier != 1.0 by {
      assert Differs(MultiplicationFilter, src, dst, multiplier) <==> multiplier != 1.0;
    }
    GainFirstSorted(GainEntry(src, factor), r);
    AllAboveGain(r);
    GainPositionUnique([], 0);
  }

  /** A gain entry in front of a sorted chain keeps it sorted exactly when every stage sorts after gain. */
  lemma GainFirstSorted(g: FilterEntry, r: seq<FilterEntry>)
    requires g.index == MultiplicationFilter && Sorted(r)
    ensures Sorted([g] + r) <==> forall j :: 0 <= j < |r| ==> Priority(r[j].index) > Priority(MultiplicationFilter)
  {
    var chain := [g] + r;
    if Sorted(chain) {
      forall j | 0 <= j < |r| ensures Priority(r[j].index) > Priority(MultiplicationFilter) {
        assert chain[j + 1] == r[j];
        SortedIsStrictlyIncreasing(chain, 0, j + 1);
      }
    }
    if forall j :: 0 <= j < |r| ==> Priority(r[j].index) > Priority(MultiplicationFilter) {
      forall i | 0 < i < |chain| ensures Priority(chain[i - 1].index) < Priority(chain[i].index) {
        if i == 1 {
          assert chain[1] == r[0];
        } else {
          assert chain[i - 1] == r[i - 2] && chain[i] == r[i - 1];
        }
      }
    }
  }

  /** Every stage of a chain sorts after gain exactly when it has no stage of a kind up to gain. */
  lemma AllAboveGain(r: seq<FilterEntry>)
    ensures (forall j :: 0 <= j < |r| ==> Priority(r[j].index) > Priority(MultiplicationFilter)) <==>
      !Has(r, SignednessFilter) && !Has(r, BitShiftingFilter) && !Has(r, ChannelMixingFilter) && !Has(r, MultiplicationFilter)
  {
    if !Has(r, SignednessFilter) && !Has(r, BitShiftingFilter) && !Has(r, ChannelMixingFilter) && !Has(r, MultiplicationFilter) {
      forall j | 0 <= j < |r| ensures Priority(r[j].index) > Priority(MultiplicationFilter) {
        assert Has(r, r[j].index);
      }
    }
  }

  /**
   * Equal formats and unity gain leave an empty chain and `dont_convert` set. A gain
   * stage added afterwards is never run when the flag stays set, as written; cleared,
   * the gain stage runs on the first buffer.
   */
  lemma GainIgnoredInPassthroughAsWritten(format: AudioFormat, factor: real, buffers: seq<AudioBuffer>,
      requiredBytes: (Stage, nat) -> nat, runStage: (Stage, AudioBuffer, seq<AudioBuffer>) -> AudioBuffer)
    requires buffers != [] && !IsEmpty(buffers[0])
    ensures RequiredStages(format, format, 1.0) == []
    ensures var chain := AddGain(RequiredStages(format, format, 1.0), format, factor);
      && chain == [GainEntry(format, factor)]
      && Converted(buffers, chain, true, requiredBytes, runStage) == buffers[0]
      && Converted(buffers, chain, false, requiredBytes, runStage)
         == runStage(Multiplication(format, factor),
              CloneWithMinimumByteLength(buffers[0], MaxRequired(chain, buffers[0].byteLength, requiredBytes)),
              buffers[1..])
  {
    RequiredStagesEmpty(format, format, 1.0);
    var chain := [GainEntry(format, factor)];
    assert chain[..0] == [];
    var working := CloneWithMinimumByteLength(buffers[0], MaxRequired(chain, buffers[0].byteLength, requiredBytes));
    assert ApplyChain(chain, working, buffers[1..], runStage) == runStage(Multiplication(format, factor), working, buffers[1..]);
  }
}

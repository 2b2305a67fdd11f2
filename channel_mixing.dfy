/**
 * Channel mixing stages of the filter chain: the dispatch on (source channels,
 * destination channels) and the four loops that rewrite a buffer of 16-bit samples
 * in place.
 */
module ChannelMixing {
  import opened AudioTypes

  /** A signed 16-bit sample (`Sint16`). */
  newtype int16 = x: int | -0x8000 <= x < 0x8000

  /** The four mixers `create` can hand out. */
  datatype Mixer = OneToTwo | TwoToOne | ManyToOne | ManyToTwo

  /** Number of channels a mixer writes per frame. */
  function OutputChannels(m: Mixer): nat
  {
    match m
    case OneToTwo => 2
    case ManyToTwo => 2
    case TwoToOne => 1
    case ManyToOne => 1
  }

  /** Source channel counts a mixer is selected for. */
  predicate SelectedFor(m: Mixer, srcChannels: nat)
  {
    match m
    case OneToTwo => srcChannels == 1
    case TwoToOne => srcChannels == 2
    case ManyToOne => srcChannels != 1 && srcChannels != 2
    case ManyToTwo => srcChannels != 1 && srcChannels != 2
  }

  /**
   * The dispatch table: no mixer (a null filter) when the destination has neither one
   * nor two channels or when the counts agree; otherwise the one mixer selected for the
   * source count that produces the destination count.
   */
  function Create(srcChannels: nat, dstChannels: nat): (r: Option<Mixer>)
    ensures r.Some? <==> (dstChannels == 1 || dstChannels == 2) && srcChannels != dstChannels
    ensures r.Some? ==> OutputChannels(r.value) == dstChannels && SelectedFor(r.value, srcChannels)
  {
    if dstChannels == 1 then
      if srcChannels == 1 then None
      else if srcChannels == 2 then Some(TwoToOne)
      else Some(ManyToOne)
    else if dstChannels == 2 then
      if srcChannels == 1 then Some(OneToTwo)
      else if srcChannels == 2 then None
      else Some(ManyToTwo)
    else None
  }

  /**
   * The many-channel mixers are chosen for every source count other than 1 and 2: the
   * counts above 2 the loops below are written for, and a source without channels.
   */
  lemma ManyMixerSources(srcChannels: nat, dstChannels: nat)
    ensures Create(srcChannels, dstChannels) == Some(ManyToOne) <==> dstChannels == 1 && (srcChannels == 0 || srcChannels >= 3)
    ensures Create(srcChannels, dstChannels) == Some(ManyToTwo) <==> dstChannels == 2 && (srcChannels == 0 || srcChannels >= 3)
  {
  }

  /** C's `x / 2` on a signed integer: the quotient truncated toward zero. */
  function TruncatingHalf(x: int): (q: int)
    ensures x >= 0 ==> 0 <= x - 2 * q <= 1
    ensures x < 0 ==> -1 <= x - 2 * q <= 0
  {
    if x >= 0 then x / 2 else -((-x) / 2)
  }

  /**
   * `Sint16((l + r) / 2)` with the sum widened to 32 bits: the mean of two samples
   * truncated toward zero, which always fits back into 16 bits.
   */
  function Average(l: int16, r: int16): (m: int16)
    ensures l as int + r as int >= 0 ==> 0 <= l as int + r as int - 2 * m as int <= 1
    ensures l as int + r as int < 0 ==> -1 <= l as int + r as int - 2 * m as int <= 0
    ensures (l <= r ==> l <= m <= r) && (r <= l ==> r <= m <= l)
  {
    var sum: int := l as int + r as int;
    TruncatingHalf(sum) as int16
  }

  /** Worked values: opposite samples cancel, full scale does not overflow, rounding is toward zero. */
  lemma AverageExamples()
    ensures Average(100, -100) == 0
    ensures Average(32767, 32767) == 32767
    ensures Average(-32768, -32767) == -32767
  {
    assert TruncatingHalf(0) == 0;
    assert TruncatingHalf(65534) == 32767;
    assert TruncatingHalf(-65535) == -32767;
  }

  /** Mono to stereo: frame i of the result holds input sample i in both channels. */
  method ReadOneToTwo(a: array<int16>, samples: nat)
    requires FrameStart(2, samples) <= a.Length
    modifies a
    ensures forall i {:trigger FrameStart(2, i)} :: 0 <= i < samples ==>
      a[FrameStart(2, i)] == old(a[i]) && a[FrameStart(2, i) + 1] == old(a[i])
    ensures forall k :: FrameStart(2, samples) <= k < a.Length ==> a[k] == old(a[k])
  {
    ghost var input := a[..];
    var i := samples;
    // Walking from the last frame down, frame i writes slots 2i and 2i+1, both at or
    // above i, so the sources 0..i-1 still to be read are never overwritten.
    while i > 0
      invariant 0 <= i <= samples
      invariant forall k {:trigger a[k]} :: 0 <= k < FrameStart(2, i) ==> a[k] == input[k]
      invariant forall j {:trigger FrameStart(2, j)} :: i <= j < samples ==>
        a[FrameStart(2, j)] == input[j] && a[FrameStart(2, j) + 1] == input[j]
      invariant forall k {:trigger a[k]} :: FrameStart(2, samples) <= k < a.Length ==> a[k] == input[k]
    {
      i := i - 1;
      var slot := FrameStart(2, i);
      a[slot + 1] := a[i];
      a[slot] := a[slot + 1];
    }
  }

  /** Stereo to mono: sample i of the result is the truncated mean of frame i. */
  method ReadTwoToOne(a: array<int16>, samples: nat)
    requires FrameStart(2, samples) <= a.Length
    modifies a
    ensures forall i :: 0 <= i < samples ==>
      a[i] == Average(old(a[FrameStart(2, i)]), old(a[FrameStart(2, i) + 1]))
    ensures forall k :: samples <= k < a.Length ==> a[k] == old(a[k])
  {
    ghost var input := a[..];
    var i := 0;
    // Frame i is read from slots 2i and 2i+1, never below i, before slot i is written.
    while i != samples
      invariant 0 <= i <= samples
      invariant forall j {:trigger a[j]} :: 0 <= j < i ==>
        a[j] == Average(input[FrameStart(2, j)], input[FrameStart(2, j) + 1])
      invariant forall k {:trigger a[k]} :: i <= k < a.Length ==> a[k] == input[k]
    {
      var slot := FrameStart(2, i);
      var left, right := a[slot], a[slot + 1];
      assert left == input[slot] && right == input[slot + 1];
      a[i] := Average(left, right);
      i := i + 1;
    }
  }

  /** Many channels to mono: sample i is the truncated mean of the first two channels of frame i. */
  method ReadManyToOne(a: array<int16>, samples: nat, srcChannels: nat)
    requires srcChannels >= 2 && FrameStart(srcChannels, samples) <= a.Length
    modifies a
    ensures forall i {:trigger FrameStart(srcChannels, i)} :: 0 <= i < samples ==>
      FrameStart(srcChannels, i) + 1 < a.Length &&
      a[i] == Average(old(a[FrameStart(srcChannels, i)]), old(a[FrameStart(srcChannels, i) + 1]))
    ensures forall k :: samples <= k < a.Length ==> a[k] == old(a[k])
  {
    ghost var input := a[..];
    var i := 0;
    while i != samples
      invariant 0 <= i <= samples
      invariant forall j {:trigger FrameStart(srcChannels, j)} :: 0 <= j < i ==>
        FrameStart(srcChannels, j) + 1 < a.Length &&
        a[j] == Average(input[FrameStart(srcChannels, j)], input[FrameStart(srcChannels, j) + 1])
      invariant forall k {:trigger a[k]} :: i <= k < a.Length ==> a[k] == input[k]
    {
      var start := FrameStart(srcChannels, i);
      FrameInside(samples, srcChannels, 1, i);
      var left, right := a[start], a[start + 1];
      assert left == input[start] && right == input[start + 1];
      a[i] := Average(left, right);
      i := i + 1;
    }
  }

  /** Many channels to stereo: frame i keeps the first two channels of source frame i. */
  method ReadManyToTwo(a: array<int16>, samples: nat, srcChannels: nat)
    requires srcChannels >= 2 && FrameStart(srcChannels, samples) <= a.Length
    modifies a
    ensures forall i {:trigger FrameStart(srcChannels, i)} :: 0 <= i < samples ==>
      FrameStart(srcChannels, i) + 1 < a.Length &&
      a[FrameStart(2, i)] == old(a[FrameStart(srcChannels, i)]) &&
      a[FrameStart(2, i) + 1] == old(a[FrameStart(srcChannels, i) + 1])
    ensures forall k :: FrameStart(2, samples) <= k < a.Length ==> a[k] == old(a[k])
  {
    ghost var input := a[..];
    var i := 0;
    while i != samples
      invariant 0 <= i <= samples
      invariant forall j {:trigger FrameStart(srcChannels, j)} :: 0 <= j < i ==>
        FrameStart(srcChannels, j) + 1 < a.Length &&
        a[FrameStart(2, j)] == input[FrameStart(srcChannels, j)] &&
        a[FrameStart(2, j) + 1] == input[FrameStart(srcChannels, j) + 1]
      invariant forall k {:trigger a[k]} :: FrameStart(2, i) <= k < a.Length ==> a[k] == input[k]
    {
      var start := FrameStart(srcChannels, i);
      FrameInside(samples, srcChannels, 2, i);
      var left, right := a[start], a[start + 1];
      assert left == input[start] && right == input[start + 1];
      var slot := FrameStart(2, i);
      a[slot] := left;
      a[slot + 1] := right;
      assert a[slot] == input[start] && a[slot + 1] == input[start + 1];
      i := i + 1;
    }
  }

  /**
   * With c >= d source channels, frame i < samples starts at or after slot d*i, where a
   * mixer producing d channels writes it, and its first two channels lie inside the
   * first c*samples slots: the forward in-place loops never overwrite unread input.
   */
  lemma FrameInside(samples: nat, c: nat, d: nat, i: nat)
    requires 2 <= c && d <= c && i < samples
    ensures d * i <= FrameStart(c, i) && FrameStart(c, i) + 1 < FrameStart(c, samples)
  {
    assert c * samples - c * i == c * (samples - i);
  }
}

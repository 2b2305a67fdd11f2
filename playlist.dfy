/**
 * The playlist cursor: a list of track paths, a cursor, an optional shuffle order and a
 * playback mode. Without shuffle the cursor indexes the tracks; with shuffle it indexes
 * the shuffle order, whose entries index the tracks. A cursor outside the list is the
 * null position: nothing is current.
 */
module Playlists {
  import opened AudioTypes

  /** The playback modes, in declaration order; `COUNT` is `ModeCount`. */
  datatype PlaybackMode = Single | RepeatList | RepeatTrack

  const ModeCount: nat := 3

  function Ordinal(m: PlaybackMode): nat
  {
    match m
    case Single => 0
    case RepeatList => 1
    case RepeatTrack => 2
  }

  /** The mode `cycle_mode` moves to: the next ordinal, wrapping at `COUNT`. */
  function NextMode(m: PlaybackMode): (r: PlaybackMode)
    ensures Ordinal(r) == (Ordinal(m) + 1) % ModeCount
  {
    match m
    case Single => RepeatList
    case RepeatList => RepeatTrack
    case RepeatTrack => Single
  }

  /** Cycling through every mode comes back to the start. */
  lemma NextModeCycles(m: PlaybackMode)
    ensures NextMode(NextMode(NextMode(m))) == m
    ensures NextMode(m) != m
  {
  }

  /**
   * One more than the largest `size_t`: the cursor is an `int` converted to `size_t`
   * when it is reduced modulo the track count (32-bit, the ARM Android target).
   */
  const SizeModulus: nat := 0x1_0000_0000

  /** The integers lo, lo+1, ..., hi-1. */
  function Range(lo: int, hi: int): (r: seq<int>)
    requires lo <= hi
    ensures |r| == hi - lo && forall i :: 0 <= i < |r| ==> r[i] == lo + i
  {
    seq(hi - lo, i => lo + i)
  }

  /** s holds each of 0, ..., m-1 exactly once. */
  ghost predicate IsPermutation(s: seq<int>, m: nat)
  {
    multiset(s) == multiset(Range(0, m))
  }

  /** A permutation of 0..m-1 has m entries, each a valid track index. */
  lemma PermutationBounds(s: seq<int>, m: nat)
    requires IsPermutation(s, m)
    ensures |s| == m && forall i :: 0 <= i < |s| ==> 0 <= s[i] < m
  {
    assert |multiset(s)| == |multiset(Range(0, m))|;
    forall i | 0 <= i < |s| ensures 0 <= s[i] < m {
      assert s[i] in multiset(s);
      assert s[i] in Range(0, m);
    }
  }

  /** Where a track index moves when n tracks are inserted at position p. */
  function ShiftIndex(x: int, p: nat, n: nat): int
  {
    if x >= p then x + n else x
  }

  /** Every entry of s moved as `ShiftIndex` says. */
  function Shifted(s: seq<int>, p: nat, n: nat): (r: seq<int>)
    ensures |r| == |s| && forall i :: 0 <= i < |s| ==> r[i] == ShiftIndex(s[i], p, n)
  {
    seq(|s|, i requires 0 <= i < |s| => ShiftIndex(s[i], p, n))
  }

  lemma ShiftedConcat(u: seq<int>, v: seq<int>, p: nat, n: nat)
    ensures Shifted(u + v, p, n) == Shifted(u, p, n) + Shifted(v, p, n)
  {
  }

  /** Shifting entries one by one does not depend on their order. */
  lemma {:induction false} ShiftedKeepsMultiset(a: seq<int>, b: seq<int>, p: nat, n: nat)
    requires multiset(a) == multiset(b)
    ensures multiset(Shifted(a, p, n)) == multiset(Shifted(b, p, n))
    decreases |a|
  {
    if a == [] {
      assert |multiset(b)| == 0;
    } else {
      var x := a[0];
      assert x in multiset(b);
      var j :| 0 <= j < |b| && b[j] == x;
      var rest := b[..j] + b[j + 1..];
      assert b == b[..j] + [x] + b[j + 1..];
      assert a == [x] + a[1..];
      assert multiset(a) == multiset{x} + multiset(a[1..]);
      assert multiset(b) == multiset(b[..j]) + multiset{x} + multiset(b[j + 1..]);
      assert multiset(rest) == multiset(b[..j]) + multiset(b[j + 1..]);
      assert multiset(a[1..]) == multiset(a) - multiset{x};
      assert multiset(rest) == multiset(b) - multiset{x};
      ShiftedKeepsMultiset(a[1..], rest, p, n);
      ShiftedConcat([x], a[1..], p, n);
      ShiftedConcat(b[..j], b[j + 1..], p, n);
      ShiftedConcat(b[..j] + [x], b[j + 1..], p, n);
      ShiftedConcat(b[..j], [x], p, n);
    }
  }

  /**
   * The shuffled `insert`: shifting a permutation of the old indices past the insertion
   * point and appending the new indices p..p+n-1 gives a permutation of all indices.
   */
  lemma ShiftedPermutation(s: seq<int>, m: nat, p: nat, n: nat)
    requires IsPermutation(s, m) && p <= m
    ensures IsPermutation(Shifted(s, p, n) + Range(p, p + n), m + n)
  {
    ShiftedKeepsMultiset(s, Range(0, m), p, n);
    assert Shifted(Range(0, m), p, n) == Range(0, p) + Range(p + n, m + n);
    assert Range(0, m + n) == Range(0, p) + Range(p, p + n) + Range(p + n, m + n);
  }

  /** A track keeps its path when n tracks are inserted at p and its index is shifted. */
  lemma InsertKeepsTrack(tracks: seq<string>, v: seq<string>, p: nat, t: int)
    requires p <= |tracks| && 0 <= t < |tracks|
    ensures var n := |v|;
      0 <= ShiftIndex(t, p, n) < |tracks| + n && (tracks[..p] + v + tracks[p..])[ShiftIndex(t, p, n)] == tracks[t]
  {
  }

  /**
   * The shuffled `insert` on values: the extended order is a permutation of all indices,
   * and a cursor slot that named a track names the same track in the extended list.
   */
  lemma ShuffledInsert(before: seq<int>, after: seq<int>, tracks: seq<string>, v: seq<string>, q: nat, c: int)
    requires q <= |tracks| && IsPermutation(before, |tracks|)
    requires |after| == |before| + |v| && after[..|before|] == Shifted(before, q, |v|)
    requires multiset(after[|before|..]) == multiset(Range(q, q + |v|))
    ensures |before| == |tracks| && IsPermutation(after, |tracks| + |v|)
    ensures 0 <= c < |tracks| ==>
      && 0 <= before[c] < |tracks| && 0 <= after[c] < |tracks| + |v|
      && (tracks[..q] + v + tracks[q..])[after[c]] == tracks[before[c]]
  {
    PermutationBounds(before, |tracks|);
    assert after == after[..|before|] + after[|before|..];
    ShiftedPermutation(before, |tracks|, q, |v|);
    if 0 <= c < |tracks| {
      assert after[c] == after[..|before|][c];
      InsertKeepsTrack(tracks, v, q, before[c]);
    }
  }

  /** `std::random_shuffle`: some reordering of the range, which one is not modelled. */
  method RandomShuffle(s: seq<int>) returns (t: seq<int>)
    ensures multiset(t) == multiset(s) && |t| == |s|
  {
    t :| multiset(t) == multiset(s);
    assert |multiset(t)| == |multiset(s)|;
  }

  /**
   * The shuffled branch of `insert` on the shuffle order: entries at or past p move up
   * by n, the order grows by n entries holding p..p+n-1, and that tail is shuffled.
   */
  method InsertedOrder(order: seq<int>, p: nat, n: nat) returns (r: seq<int>)
    ensures |r| == |order| + n
    ensures r[..|order|] == Shifted(order, p, n)
    ensures multiset(r[|order|..]) == multiset(Range(p, p + n))
  {
    r := order;
    var k := 0;
    while k < |r|
      invariant 0 <= k <= |r| == |order|
      invariant forall i :: 0 <= i < k ==> r[i] == ShiftIndex(order[i], p, n)
      invariant forall i :: k <= i < |order| ==> r[i] == order[i]
    {
      if r[k] >= p {
        r := r[k := r[k] + n];
      }
      k := k + 1;
    }
    var previousSize := |r|;
    r := r + seq(n, _ => 0);
    var i := 0;
    while i < n
      invariant 0 <= i <= n && |r| == previousSize + n
      invariant r[..previousSize] == Shifted(order, p, n)
      invariant forall j :: previousSize <= j < previousSize + i ==> r[j] == p + (j - previousSize)
    {
      r := r[previousSize + i := i + p];
      i := i + 1;
    }
    assert r[previousSize..] == Range(p, p + n);
    var tail := RandomShuffle(r[previousSize..]);
    r := r[..previousSize] + tail;
    assert r[..previousSize] == Shifted(order, p, n);
    assert r[previousSize..] == tail;
  }

  /**
   * The shuffle order `toggle_shuffle` builds for n > 0 tracks: the identity order, the
   * cursor's slot swapped to the front, the remaining entries shuffled. Corrected: at a
   * cursor outside 0..n-1 there is no swap.
   */
  method FreshOrder(n: nat, cursor: int) returns (r: seq<int>)
    requires n > 0
    ensures |r| == n && IsPermutation(r, n)
    ensures 0 <= cursor < n ==> r[0] == cursor
  {
    r := seq(n, _ => 0);
    var i := 0;
    while i < |r|
      invariant 0 <= i <= |r| == n
      invariant forall j :: 0 <= j < i ==> r[j] == j
    {
      r := r[i := i];
      i := i + 1;
    }
    assert r == Range(0, n);
    if 0 <= cursor < n {
      var first := r[0];
      r := r[0 := r[cursor]][cursor := first];
      SwapKeepsMultiset(Range(0, n), 0, cursor);
    }
    var rest := RandomShuffle(r[1..]);
    ShuffledTailKeepsMultiset(r, rest);
    r := [r[0]] + rest;
  }

  /** Reordering everything after the first entry keeps the multiset of entries. */
  lemma ShuffledTailKeepsMultiset(r: seq<int>, rest: seq<int>)
    requires |r| > 0 && multiset(rest) == multiset(r[1..])
    ensures multiset([r[0]] + rest) == multiset(r)
  {
    assert r == [r[0]] + r[1..];
  }

  /** Cursor after `next` on a list of n tracks, when not at the null position. */
  function NextCursor(mode: PlaybackMode, c: int, n: nat): int
    requires n > 0
  {
    match mode
    case Single => c + 1
    case RepeatList => (c + 1) % n
    case RepeatTrack => c
  }

  lemma ModBelow(x: int, n: int)
    requires 0 <= x < n
    ensures x % n == x
  {
  }

  lemma ModWrap(x: int, n: int)
    requires 0 <= x < n
    ensures (x + n) % n == x
  {
  }

  /** Cursor after a successful `back` on a list of n tracks: one step back, wrapping. */
  function BackCursor(c: nat, n: nat): (r: nat)
    requires c < n
    ensures r < n
    ensures c > 0 ==> r == c - 1
    ensures c == 0 ==> r == n - 1
  {
    if c > 0 then
      ModWrap(c - 1, n);
      (c + (n - 1)) % n
    else
      ModBelow(n - 1, n);
      (c + (n - 1)) % n
  }

  /** In repeat-list mode `back` undoes `next` and `next` undoes `back`. */
  lemma BackUndoesNext(c: nat, n: nat)
    requires c < n
    ensures var forward := NextCursor(RepeatList, c, n); 0 <= forward < n && BackCursor(forward, n) == c
    ensures NextCursor(RepeatList, BackCursor(c, n), n) == c
  {
    if c + 1 < n {
      ModBelow(c + 1, n);
    } else {
      ModWrap(0, n);
    }
    ModBelow(c, n);
  }

  /**
   * `toggle_shuffle` as written reads `shuffle_vector[current_track]` (turning shuffle
   * off) or swaps `shuffle_vector[current_track]` (turning it on) whenever the vector
   * is not empty; this says whether that index is in range.
   */
  predicate ToggleIndexesInRange(trackCount: nat, shuffleLength: nat, cursor: int, shuffle: bool)
  {
    if shuffle then shuffleLength == 0 || 0 <= cursor < shuffleLength
    else trackCount == 0 || 0 <= cursor < trackCount
  }

  /**
   * On a consistent playlist the indexing of `toggle_shuffle` as written is in range
   * exactly when the list is empty or the cursor is not at the null position.
   */
  lemma ToggleAsWrittenNeedsCursor(trackCount: nat, shuffleLength: nat, cursor: int, shuffle: bool)
    requires shuffle ==> shuffleLength == trackCount
    ensures ToggleIndexesInRange(trackCount, shuffleLength, cursor, shuffle) <==>
      trackCount == 0 || 0 <= cursor < trackCount
  {
  }

  /**
   * One track, single mode, shuffle off: `next` from the track moves the cursor past the
   * end, and turning shuffle on then swaps with slot 1 of a one-element vector.
   */
  lemma ToggleAfterLastTrackAsWritten()
    ensures NextCursor(Single, 0, 1) == 1
    ensures !ToggleIndexesInRange(1, 0, NextCursor(Single, 0, 1), false)
  {
  }

  class Playlist {
    var tracks: seq<string>
    var shuffleVector: seq<int>
    var currentTrack: int
    var shuffle: bool
    var mode: PlaybackMode

    /**
     * The cursor is the null position -1, a slot of the list, or one past its end; the
     * shuffle order is a permutation of the track indices when shuffling and empty
     * otherwise.
     */
    ghost predicate Valid()
      reads this
    {
      && -1 <= currentTrack <= |tracks|
      && |shuffleVector| == (if shuffle then |tracks| else 0)
      && (shuffle ==> IsPermutation(shuffleVector, |tracks|))
      && (!shuffle ==> shuffleVector == [])
    }

    /** Nothing is current: the cursor is outside the list. */
    predicate AtNullPosition()
      reads this
    {
      !(0 <= currentTrack < |tracks|)
    }

    /** `get_current_track`: the current track's path, through the shuffle order when shuffling. */
    function GetCurrentTrack(): (r: Option<string>)
      requires Valid()
      reads this
      ensures r.None? <==> AtNullPosition()
      ensures r.Some? ==> r.value in tracks
    {
      if AtNullPosition() then None
      else if !shuffle then Some(tracks[currentTrack])
      else
        PermutationBounds(shuffleVector, |tracks|);
        Some(tracks[shuffleVector[currentTrack]])
    }

    /** `is_back_possible`: not at the null position, and not at slot 0 when shuffling or in single mode. */
    predicate IsBackPossible()
      reads this
    {
      && !AtNullPosition()
      && !(currentTrack == 0 && (shuffle || mode == Single))
    }

    /** A new playlist: empty, cursor at the null position. */
    constructor (shuffle: bool, mode: PlaybackMode)
      ensures Valid()
      ensures tracks == [] && shuffleVector == [] && currentTrack == -1
      ensures this.shuffle == shuffle && this.mode == mode
    {
      tracks := [];
      shuffleVector := [];
      currentTrack := -1;
      this.shuffle := shuffle;
      this.mode := mode;
    }

    /** `clear`: no tracks, no shuffle order, the cursor at the null position. */
    method Clear()
      modifies this
      ensures Valid()
      ensures tracks == [] && shuffleVector == [] && currentTrack == -1
      ensures shuffle == old(shuffle) && mode == old(mode)
    {
      tracks := [];
      shuffleVector := [];
      currentTrack := -1;
    }

    /**
     * `insert`: splices v into the list at p modulo one more than the length. Without
     * shuffle the cursor follows its track (a null cursor of -1 moves to slot 0); with
     * shuffle the order's entries follow their tracks and the new indices are appended
     * in some order. The current track stays current.
     */
    method Insert(v: seq<string>, p: nat)
      requires Valid()
      modifies this
      ensures Valid()
      ensures var q := p % (|old(tracks)| + 1);
        && tracks == old(tracks)[..q] + v + old(tracks)[q..]
        && (!shuffle ==> currentTrack == if old(currentTrack) < 0 then 0
                                         else if old(currentTrack) >= q then old(currentTrack) + |v|
                                         else old(currentTrack))
        && (shuffle ==> && currentTrack == old(currentTrack)
                        && |shuffleVector| == |old(shuffleVector)| + |v|
                        && shuffleVector[..|old(shuffleVector)|] == Shifted(old(shuffleVector), q, |v|)
                        && multiset(shuffleVector[|old(shuffleVector)|..]) == multiset(Range(q, q + |v|)))
      ensures old(GetCurrentTrack()).Some? ==> GetCurrentTrack() == old(GetCurrentTrack())
      ensures shuffle == old(shuffle) && mode == old(mode)
    {
      ghost var track := GetCurrentTrack();
      var q := p % (|tracks| + 1);
      var n := |v|;
      var extended := tracks[..q] + v + tracks[q..];
      if shuffle {
        var order := InsertedOrder(shuffleVector, q, n);
        ShuffledInsert(shuffleVector, order, tracks, v, q, currentTrack);
        tracks, shuffleVector := extended, order;
      } else {
        if 0 <= currentTrack < |tracks| {
          InsertKeepsTrack(tracks, v, q, currentTrack);
        }
        tracks, currentTrack := extended, if currentTrack < 0 then 0 else ShiftIndex(currentTrack, q, n);
      }
      assert track.Some? ==> GetCurrentTrack() == track;
    }

    /**
     * `toggle_shuffle`, corrected: turning shuffle on builds a shuffled order whose first
     * entry is the current track and moves the cursor to it; turning it off moves the
     * cursor to the track the order pointed at. At the null position the cursor is left
     * alone and not used as an index. The current track stays current.
     */
    method ToggleShuffle()
      requires Valid()
      modifies this
      ensures Valid()
      ensures shuffle == !old(shuffle)
      ensures GetCurrentTrack() == old(GetCurrentTrack())
      ensures old(shuffle) ==> shuffleVector == []
      ensures old(shuffle) && !old(AtNullPosition()) ==> currentTrack == old(shuffleVector[currentTrack])
      ensures !old(shuffle) && |tracks| > 0 && !old(AtNullPosition()) ==>
        currentTrack == 0 && shuffleVector[0] == old(currentTrack)
      ensures old(AtNullPosition()) ==> currentTrack == old(currentTrack)
      ensures tracks == old(tracks) && mode == old(mode)
    {
      if shuffle {
        if |shuffleVector| > 0 {
          if !AtNullPosition() {
            PermutationBounds(shuffleVector, |tracks|);
            currentTrack := shuffleVector[currentTrack];
          }
          shuffleVector := [];
        } else {
          assert shuffleVector == [];
        }
      } else {
        if |tracks| > 0 {
          shuffleVector := FreshOrder(|tracks|, currentTrack);
          if !AtNullPosition() {
            currentTrack := 0;
          }
        } else {
          assert Range(0, 0) == [];
        }
      }
      shuffle := !shuffle;
    }

    /**
     * `next`: nothing at the null position; otherwise single mode steps on (possibly past
     * the end), repeat-list steps on and wraps, reshuffling when it wraps to the start
     * of a shuffled list, and repeat-track stays.
     */
    method Next() returns (moved: bool)
      requires Valid()
      modifies this
      ensures tracks == old(tracks) && shuffle == old(shuffle) && mode == old(mode)
      ensures Valid()
      ensures moved == !old(AtNullPosition())
      ensures moved ==> currentTrack == NextCursor(mode, old(currentTrack), |tracks|)
      ensures !moved ==> currentTrack == old(currentTrack)
      ensures moved && mode == RepeatList && currentTrack == 0 && shuffle ==>
        multiset(shuffleVector) == multiset(old(shuffleVector))
      ensures !(moved && mode == RepeatList && currentTrack == 0 && shuffle) ==> shuffleVector == old(shuffleVector)
    {
      if AtNullPosition() {
        return false;
      }
      match mode {
        case Single =>
          currentTrack := currentTrack + 1;
        case RepeatList =>
          currentTrack := (currentTrack + 1) % |tracks|;
          if currentTrack == 0 && shuffle {
            shuffleVector := RandomShuffle(shuffleVector);
          }
        case RepeatTrack =>
      }
      return true;
    }

    /** `back`: when `is_back_possible`, one step back, wrapping from slot 0 to the last slot. */
    method Back() returns (moved: bool)
      requires Valid()
      modifies this
      ensures tracks == old(tracks) && shuffleVector == old(shuffleVector)
      ensures shuffle == old(shuffle) && mode == old(mode)
      ensures Valid()
      ensures moved == old(IsBackPossible())
      ensures moved ==> currentTrack == BackCursor(old(currentTrack), |tracks|)
      ensures !moved ==> currentTrack == old(currentTrack)
    {
      if !IsBackPossible() {
        return false;
      }
      var n := |tracks|;
      currentTrack := (currentTrack + (n - 1)) % n;
      return true;
    }

    /**
     * `cycle_mode`: the next mode; entering repeat-list on a non-empty list brings the
     * cursor back into the list, reducing it (as a `size_t`) modulo the track count.
     */
    method CycleMode() returns (m: PlaybackMode)
      requires Valid()
      modifies this
      ensures Valid()
      ensures mode == NextMode(old(mode)) && m == mode
      ensures mode == RepeatList && |tracks| > 0 ==>
        currentTrack == (old(currentTrack) % SizeModulus) % |tracks| && !AtNullPosition()
      ensures !(mode == RepeatList && |tracks| > 0) ==> currentTrack == old(currentTrack)
      ensures tracks == old(tracks) && shuffleVector == old(shuffleVector) && shuffle == old(shuffle)
    {
      mode := NextMode(mode);
      if mode == RepeatList && |tracks| > 0 {
        currentTrack := (currentTrack % SizeModulus) % |tracks|;
      }
      m := mode;
    }
  }

  /** Swapping two entries keeps the multiset of entries. */
  lemma SwapKeepsMultiset(s: seq<int>, i: nat, j: nat)
    requires i < |s| && j < |s|
    ensures multiset(s[i := s[j]][j := s[i]]) == multiset(s)
  {
  }
}

# CopperRat audio core, modelled in Dafny

This project models four parts of the CopperRat Android audio player's native code and proves properties about them.

- **Filter-chain manager** (`AudioFilterManager`).
  - It compares the decoder's format with the device format field by field.
  - It builds a chain of conversion stages ordered by a fixed priority: signedness, bit shifting, channel mixing, gain, resampling.
  - It records whether the chain converts anything at all.
  - It reads decoder buffers with one buffer of look-ahead.
  - It sizes a working buffer for the whole chain and runs the stages.
  - It can insert a gain stage afterwards.
- **Channel mixers.**
  - The dispatch on (source channels, destination channels).
  - Four loops that rewrite a buffer of 16-bit samples in place: mono to stereo, stereo to mono, many to mono, many to stereo.
- **Playlist.**
  - A list of track paths, a cursor, an optional shuffle order (a permutation of the track indices) and a playback mode.
  - Operations: `clear`, `insert`, `toggle_shuffle`, `get_current_track`, `next`, `back`, `is_back_possible`, `cycle_mode`.
- **FLAC decoder glue.**
  - The name table of libFLAC's initialisation statuses.
  - The copy of a decoded frame's per-channel sample arrays into one interleaved buffer, and the table that picks the element type for that copy.
  - The queue of decoded buffers between the write callback and `read_more_internal`, with `seek` and `free_buffers`.
  - The sentinel returned for the length in seconds while no format has been declared.

Files:

| file | module | contents |
|---|---|---|
| `audio_types.dfy` | `AudioTypes` | `Option`, `AudioFormat`, `AudioBuffer`, frame arithmetic, the clone that enlarges storage |
| `channel_mixing.dfy` | `ChannelMixing` | `Create` and the four in-place mixing loops over `array<int16>` |
| `audio_filter.dfy` | `AudioFilter` | the chain as a value, with lemmas on building, gathering, sizing, running and gain insertion |
| `filter_manager.dfy` | `FilterManager` | the `AudioFilterManager` class and a decoder stand-in class |
| `playlist.dfy` | `Playlists` | the `Playlist` class, shuffle-order helpers and cursor arithmetic |
| `flac_decoder.dfy` | `FlacDecoding` | `ToString`, the allocator table, `CopyToNewBuffer` and the `FlacDecoder` class |

How stateful code is modelled:

- The code that changes state is modelled imperatively.
  - `AudioFilterManager`, `Playlist` and `FlacDecoder` are classes whose methods update their fields.
  - The mixers rewrite an `array` in place.
  - `copy_to_new_buffer` fills an `array` in a nested loop.
- Each method is proved against a specification function on values:
  - `RequiredStages`, `Gather`, `MaxRequired`, `ApplyChain`, `AddGain`, `Converted`;
  - `Shifted`, `IsPermutation`, `NextCursor`, `BackCursor`;
  - `Interleave`, `FrameBuffer`.
- The properties the code relies on are proved about those functions.
- Where the code as written misbehaves, the model keeps both:
  - a function for the code as written, with a lemma showing the failing input;
  - the corrected behaviour, which the classes use.

## Model

| member | source | states |
|---|---|---|
| `AudioTypes.CloneWithMinimumByteLength` | src/jni/src/AudioFilter.cpp:111 | The clone has storage of at least the requested size and never less than the original's. It keeps the samples, channels and sample width. |
| `ChannelMixing.Create` | src/jni/src/ChannelMixingFilter.cpp:90-117 | There is a mixer exactly when the destination has one or two channels and the counts differ; otherwise null. The mixer chosen writes the destination's channel count and is the one for the source count (2 gives TwoToOne or stays null, 1 gives OneToTwo, others give ManyToOne or ManyToTwo). |
| `ChannelMixing.TruncatingHalf` | src/jni/src/ChannelMixingFilter.cpp:55 | C's `/ 2` on a signed value: the quotient is truncated toward zero, with a remainder of 0 or 1 having the dividend's sign. |
| `ChannelMixing.Average` | src/jni/src/ChannelMixingFilter.cpp:54-55 | The mean of two 16-bit samples is summed in 32 bits and truncated toward zero. It lies between the two samples, so it always fits in 16 bits. |
| `ChannelMixing.AverageExamples` | src/jni/src/ChannelMixingFilter.cpp:53-56 | (100, -100) gives 0; (32767, 32767) gives 32767; (-32768, -32767) gives -32767 (rounding toward zero). |
| `ChannelMixing.ReadOneToTwo` | src/jni/src/ChannelMixingFilter.cpp:35-42 | Both channels of output frame i equal input sample i, for every i < samples, even though the loop writes in place. Slots past the stereo frames are untouched. |
| `ChannelMixing.ReadTwoToOne` | src/jni/src/ChannelMixingFilter.cpp:48-57 | Output sample i is `Average` of the original stereo frame i, for every i, although slot i is overwritten in place. The slots from `samples` on are untouched. |
| `ChannelMixing.ManyMixerSources` | src/jni/src/ChannelMixingFilter.cpp:90-117 | `create` picks a many-channel mixer if and only if the destination has 1 or 2 channels and the source has 0 or at least 3. |
| `ChannelMixing.ReadManyToOne` | src/jni/src/ChannelMixingFilter.cpp:63-72 | Output sample i is `Average` of the first two channels of original frame i, for any source channel count of at least 2. The rest is untouched. |
| `ChannelMixing.ReadManyToTwo` | src/jni/src/ChannelMixingFilter.cpp:78-87 | Output frame i holds the first two channels of original frame i, and the other channels are dropped. The rest is untouched. |
| `ChannelMixing.FrameInside` | src/jni/src/ChannelMixingFilter.cpp:68-70 | A source frame with at least as many channels as the output starts at or after the slot where its output is written, so forward in-place loops never overwrite unread input. |
| `AudioFilter.SortedIsStrictlyIncreasing` | src/jni/src/AudioFilter.cpp:48-54 | In a sorted chain every earlier stage has a strictly lower `FilterIndices` value than every later one. |
| `AudioFilter.SortedHasNoDuplicateKinds` | src/jni/src/AudioFilter.cpp:56-72 | A sorted chain holds at most one stage of each kind. |
| `AudioFilter.MixingEntry` | src/jni/src/AudioFilter.cpp:65-67 | The channel-mixing entry is filed under `CHANNEL_MIXING_FILTER`. Its stage is null exactly when `ChannelMixingFilter::create` returns null. |
| `AudioFilter.PushIfKeeps` | src/jni/src/AudioFilter.cpp:60-72 | Each conditional `push_back` keeps the chain sorted and every stage under its own kind, given the kind it pushes. It adds a null stage only if the pushed entry has one. |
| `AudioFilter.PushIfHas` | src/jni/src/AudioFilter.cpp:60-72 | A conditional push adds the pushed kind, only when it pushes, and no other kind. |
| `AudioFilter.LowerStages` | src/jni/src/AudioFilter.cpp:57-67 | The signedness, bit-shifting and mixing pushes give a sorted, well-tagged chain below the gain stage's priority. It holds a null stage exactly when the channel counts differ and the device has neither one nor two channels. |
| `AudioFilter.RequiredStages` | src/jni/src/AudioFilter.cpp:56-72 | The chain `allocate_filters` builds is sorted by `FilterIndices` and every stage is filed under its own kind. |
| `AudioFilter.RequiredStagesShape` | src/jni/src/AudioFilter.cpp:68-72 | The chain is the lower stages, then the gain stage (told the format after mixing) exactly when the multiplier is not 1.0, then the resampler when the rates differ. |
| `AudioFilter.RequiredStagesAppended` | src/jni/src/AudioFilter.cpp:56-72 | The five conditional pushes onto an existing vector append exactly `RequiredStages` to it. |
| `AudioFilter.RequiredStagesKinds` | src/jni/src/AudioFilter.cpp:59-72 | A kind of stage is in the chain if and only if the field it converts differs between decoder and device (for gain: the multiplier is not 1.0). |
| `AudioFilter.RequiredStagesNullStage` | src/jni/src/AudioFilter.cpp:65-67 | The chain holds a null stage if and only if the channel counts differ and the device has neither one nor two channels. |
| `AudioFilter.RequiredStagesEmpty` | src/jni/src/AudioFilter.cpp:73 | The chain is empty (`dont_convert`) if and only if the formats are equal and the multiplier is 1.0. |
| `AudioFilter.NullMixingChain` | src/jni/src/AudioFilter.cpp:65-67 | When only the channel count differs and no mixer exists for it, the chain is the null mixing entry alone. |
| `AudioFilter.SixChannelChain` | src/jni/src/AudioFilter.cpp:65-67 | Stereo 16-bit at 44100 Hz on a six-channel device gives the chain consisting of the null mixing entry alone. |
| `AudioFilter.LookAheadStart` | src/jni/src/AudioFilter.cpp:85-86 | `read` starts from the saved buffer if and only if this is not the first call and a non-empty buffer was saved. It starts from at most one buffer. |
| `AudioFilter.GatherTakesInOrder` | src/jni/src/AudioFilter.cpp:88-93 | Gathering keeps what it started with and appends the decoder's next buffers in order, all non-empty, up to two in total. With two it leaves the rest with the decoder. Stopping earlier means the decoder ran dry, or handed out an empty buffer, which is consumed. |
| `AudioFilter.MaxRequired` | src/jni/src/AudioFilter.cpp:103-110 | The sizing loop's result is at least the input size and at least the size the whole chain ends with, skipping null stages. |
| `AudioFilter.MaxRequiredIsMaximum` | src/jni/src/AudioFilter.cpp:103-110 | The working size is the maximum over every prefix of the chain: at least each prefix's size, and equal to one of them. |
| `AudioFilter.ApplyChainAsWrittenFailsOnNull` | src/jni/src/AudioFilter.cpp:112-113 | The stage loop as written fails if and only if the chain holds a null stage. Otherwise it equals the corrected run `ApplyChain`. |
| `AudioFilter.SixChannelDeviceFailsAsWritten` | src/jni/src/AudioFilter.cpp:112-113 | For stereo on a six-channel device the loop as written dereferences the null mixing stage. The corrected run returns the working buffer unchanged. |
| `AudioFilter.ConvertedEmptyChain` | src/jni/src/AudioFilter.cpp:101-113 | With no stages, `read`'s result has the first buffer's samples, sample data and byte length. |
| `AudioFilter.GainPosition` | src/jni/src/AudioFilter.cpp:119-126 | The search stops at the first stage whose kind is not below the gain stage's kind, or at the end of the chain. All stages before that point are below it. |
| `AudioFilter.GainPositionUnique` | src/jni/src/AudioFilter.cpp:119-126 | Those three properties determine the stop position. |
| `AudioFilter.LowerStagesFormat` | src/jni/src/AudioFilter.cpp:57-69 | With no null mixing stage, the samples leaving the lower stages have the format after mixing (`temp`). This is the format allocation gives the gain stage. |
| `AudioFilter.AddGainIdempotent` | src/jni/src/AudioFilter.cpp:120-122 | Adding a gain stage twice equals adding it once, whatever the second factor. |
| `AudioFilter.AddGainInsertsOnce` | src/jni/src/AudioFilter.cpp:117-128 | On a sorted chain, an existing gain stage means nothing changes. Otherwise one non-null gain stage is inserted at the stop position and the other stages keep their order. The result is sorted and has a gain stage. |
| `AudioFilter.GainPresentKept` | src/jni/src/AudioFilter.cpp:120-122 | A sorted chain that has a gain stage is left unchanged. |
| `AudioFilter.GainAbsentInserted` | src/jni/src/AudioFilter.cpp:123-128 | On a sorted chain without a gain stage, exactly one is inserted at the stop position, the prefix and suffix stay as they were, and the chain stays sorted. |
| `AudioFilter.GainAfterLowerStages` | src/jni/src/AudioFilter.cpp:120-128 | Stages below the gain's priority followed by stages above it: the gain goes between them, told the format reaching it. |
| `AudioFilter.Resampled` | src/jni/src/AudioFilter.cpp:71-72 | The resampling stage, present only when the rates differ, sorts after the gain stage. |
| `AudioFilter.AddGainMatchesAllocation` | src/jni/src/AudioFilter.cpp:68-69 | Without a null mixing stage, adding gain after allocating with unity gain gives the same chain as allocating with that gain. |
| `AudioFilter.GainFormatAsWritten` | src/jni/src/AudioFilter.cpp:127 | Mono unsigned 8-bit on a stereo signed 16-bit device: the code as written tells the new gain stage the decoder's format, not the one allocation would use. The corrected `AddGain` agrees with allocation. |
| `AudioFilter.GainAfterNullMixing` | src/jni/src/AudioFilter.cpp:127-128 | On the chain holding only a null mixing entry, the code as written dereferences null. The corrected insertion appends the gain stage told the decoder's format. |
| `AudioFilter.GainAfterNullStageFailsAsWritten` | src/jni/src/AudioFilter.cpp:127 | For any device channel count no mixer produces, with all other fields equal, `add_multiplication_filter` as written fails, while the corrected version inserts the gain stage after the null entry. |
| `AudioFilter.GainBeforeLazyAllocation` | src/jni/src/AudioFilter.cpp:56-129 | A gain stage added to a chain not yet allocated stands alone. Allocation then pushes `RequiredStages` behind it. The result is sorted if and only if signedness, sample width and channels agree and the multiplier is 1.0. With any other multiplier the chain holds a second gain stage. |
| `AudioFilter.GainFirstSorted` | src/jni/src/AudioFilter.cpp:48-54 | A gain stage in front of a sorted chain leaves it sorted if and only if every stage of the chain sorts above a gain stage. |
| `AudioFilter.AllAboveGain` | src/jni/src/AudioFilter.cpp:48-54 | Every stage sorts above a gain stage if and only if the chain has no signedness, bit-shifting, channel-mixing or gain stage. |
| `AudioFilter.AddGainKeepsSorted` | src/jni/src/AudioFilter.cpp:117-128 | Adding a gain stage keeps a sorted chain sorted and leaves a gain stage in it. |
| `AudioFilter.GainIgnoredInPassthroughAsWritten` | src/jni/src/AudioFilter.cpp:101-102 | Equal formats with unity gain give an empty chain. A gain stage added later is never run while `dont_convert` stays set, as written. Cleared, it runs on the first buffer. |
| `FilterManager.Decoder.Read` | src/jni/src/AudioFilter.cpp:89-90 | The decoder hands out its next buffer in order, and empty buffers once it has none. |
| `FilterManager.AudioFilterManager.constructor` | src/jni/src/AudioFilter.cpp:38-46 | The first read needs two buffers and nothing is saved. The chain is `RequiredStages` unless the decoder asks for lazy allocation, in which case it is empty and not yet allocated. |
| `FilterManager.AudioFilterManager.AllocateFilters` | src/jni/src/AudioFilter.cpp:56-75 | `RequiredStages` is appended to the chain, `dont_convert` holds if and only if the chain is empty, and the chain is marked allocated. |
| `FilterManager.AudioFilterManager.GatherBuffers` | src/jni/src/AudioFilter.cpp:88-93 | The gathering loop's buffers, and what it leaves with the decoder, are `Gather` of its start and the decoder's queue. |
| `FilterManager.AudioFilterManager.MaxBytesRequired` | src/jni/src/AudioFilter.cpp:103-110 | The loop computes `MaxRequired` of the chain. |
| `FilterManager.AudioFilterManager.RunChain` | src/jni/src/AudioFilter.cpp:112-113 | The corrected stage loop computes `ApplyChain`: it runs each non-null stage in chain order and skips null ones. |
| `FilterManager.AudioFilterManager.AllocateOnFirstRead` | src/jni/src/AudioFilter.cpp:95-96 | On a chain not yet allocated, `RequiredStages` is appended and the chain is marked allocated. The manager's invariant is kept, so the chain is sorted unless a gain stage came first. |
| `FilterManager.AudioFilterManager.Read` | src/jni/src/AudioFilter.cpp:82-115 | The decoder's queue and the saved buffer follow `Gather` from `LookAheadStart`. The sample count is that of the first gathered buffer, or 0. The result is `Converted` of the gathered buffers. The chain is allocated by the first read at the latest, and kept once allocated. |
| `FilterManager.AudioFilterManager.AddMultiplicationFilter` | src/jni/src/AudioFilter.cpp:117-129 | The loop computes `AddGain` of the chain, and `dont_convert` is cleared when a stage was inserted. A sorted chain stays sorted and then holds a gain stage. A call before the chain is allocated is recorded, since the later allocation pushes behind it. |
| `FilterManager.AudioFilterManager.FindGainSlot` | src/jni/src/AudioFilter.cpp:118-126 | The search stops one past the last stage sorting below a gain stage (`GainPosition`). It reports a gain stage found exactly when the next stage is one. |
| `Playlists.NextMode` | src/jni/src/Playlist.cpp:97 | The next mode's ordinal is the current one plus one, modulo `COUNT`. |
| `Playlists.NextModeCycles` | src/jni/src/Playlist.cpp:97 | Three cycles return to the starting mode, and one cycle always changes it. |
| `Playlists.PermutationBounds` | src/jni/src/Playlist.cpp:57 | A shuffle order of n tracks has n entries, each a valid track index. |
| `Playlists.Shifted` | src/jni/src/Playlist.cpp:20-22 | Each shuffle-order entry at or past the insertion point moves up by the number of inserted tracks; the others stay. |
| `Playlists.ShiftedKeepsMultiset` | src/jni/src/Playlist.cpp:20-22 | Shifting entry by entry does not depend on their order: equal multisets stay equal. |
| `Playlists.ShiftedPermutation` | src/jni/src/Playlist.cpp:19-27 | A shifted permutation of the old indices, followed by the new indices p..p+n-1, is a permutation of all indices. |
| `Playlists.InsertKeepsTrack` | src/jni/src/Playlist.cpp:28-32 | After splicing n tracks at p, a shifted index names the same path as before. |
| `Playlists.ShuffledInsert` | src/jni/src/Playlist.cpp:19-27 | The extended shuffle order is a permutation of all track indices, and the slot under the cursor still names the same track. |
| `Playlists.RandomShuffle` | src/jni/src/Playlist.cpp:27 | `std::random_shuffle` yields a reordering: same length, same multiset. |
| `Playlists.InsertedOrder` | src/jni/src/Playlist.cpp:19-27 | The old entries are shifted in place, followed by exactly the new indices p..p+n-1 in some order. |
| `Playlists.FreshOrder` | src/jni/src/Playlist.cpp:42-48 | The new shuffle order is a permutation of all track indices, with the current track's index first. |
| `Playlists.ShuffledTailKeepsMultiset` | src/jni/src/Playlist.cpp:48 | Shuffling everything after the first entry keeps the multiset. |
| `Playlists.SwapKeepsMultiset` | src/jni/src/Playlist.cpp:46 | `std::swap` of two entries keeps the multiset. |
| `Playlists.BackCursor` | src/jni/src/Playlist.cpp:83-84 | `(c + n - 1) % n` is c - 1 for c > 0 and n - 1 for c = 0, always a valid slot. |
| `Playlists.BackUndoesNext` | src/jni/src/Playlist.cpp:70 | In repeat-list mode, `back` after `next` and `next` after `back` both return to the same slot. |
| `Playlists.ToggleAsWrittenNeedsCursor` | src/jni/src/Playlist.cpp:37-46 | The indexing in `toggle_shuffle` as written is in range if and only if the list is empty or the cursor is not at the null position. |
| `Playlists.ToggleAfterLastTrackAsWritten` | src/jni/src/Playlist.cpp:46 | One track in single mode: after `next` moves past the end, turning shuffle on as written swaps with an out-of-range slot. |
| `Playlists.Playlist.GetCurrentTrack` | src/jni/src/Playlist.cpp:54-60 | There is no track exactly at the null position. Otherwise the result is a path from the list, taken through the shuffle order when shuffling. |
| `Playlists.Playlist.Clear` | src/jni/src/Playlist.cpp:10-14 | No tracks, no shuffle order, and the cursor at -1; the mode and the shuffle flag are kept. |
| `Playlists.Playlist.Insert` | src/jni/src/Playlist.cpp:16-33 | v is spliced at p modulo (length + 1). Unshuffled, a cursor of -1 becomes 0 and a cursor at or past p moves up by \|v\|. Shuffled, the order is shifted and extended by the new indices. The order stays a permutation and a current track stays current. |
| `Playlists.Playlist.ToggleShuffle` | src/jni/src/Playlist.cpp:35-52 | The flag flips, and the current track (or its absence) is the same afterwards. Turning shuffle on puts the current track first with the cursor at 0. Turning it off moves the cursor to the track's position in the list order and clears the order. |
| `Playlists.Playlist.Next` | src/jni/src/Playlist.cpp:62-78 | At the null position nothing changes and the result is false. Otherwise the cursor moves as `NextCursor` says (single: +1; repeat-list: +1 wrapping; repeat-track: stays). The order is reshuffled only on wrapping to 0 while shuffling. |
| `Playlists.Playlist.Back` | src/jni/src/Playlist.cpp:80-94 | The method succeeds exactly when `is_back_possible` holds, and then moves the cursor to `BackCursor`. Otherwise nothing changes. |
| `Playlists.Playlist.CycleMode` | src/jni/src/Playlist.cpp:96-101 | The mode advances and is returned. Entering repeat-list on a non-empty list reduces the cursor, as a 32-bit `size_t`, modulo the length, which leaves it inside the list. |
| `FlacDecoding.ToString` | src/jni/src/FLACDecoder.cpp:40-57 | Every status gets a non-empty name, and "unknown error" exactly for the unlisted ones. |
| `FlacDecoding.ToStringDistinguishesListed` | src/jni/src/FLACDecoder.cpp:40-53 | Different listed statuses have different names. |
| `FlacDecoding.Narrow` | src/jni/src/FLACDecoder.cpp:92 | Storing a 32-bit sample into `SampleT` wraps it to the type's range and keeps the value when it already fits. |
| `FlacDecoding.AllocatorFor` | src/jni/src/FLACDecoder.cpp:98-104 | The table is null only for 0 bytes. Every other entry's type is at least as wide as the sample. |
| `FlacDecoding.PositionInside` | src/jni/src/FLACDecoder.cpp:90 | Every position the loop visits is below channels × samples. |
| `FlacDecoding.BoundsAssertionIff` | src/jni/src/FLACDecoder.cpp:88-91 | On a non-empty frame the assertion holds for every visited slot if and only if the element type is no wider than the sample. |
| `FlacDecoding.SlotFits` | src/jni/src/FLACDecoder.cpp:91 | With an element no wider than the sample, every visited slot ends inside the buffer. |
| `FlacDecoding.LastSlotOverruns` | src/jni/src/FLACDecoder.cpp:91 | With a wider element, the last slot ends past the buffer. |
| `FlacDecoding.AllocatorTableFits` | src/jni/src/FLACDecoder.cpp:98-104 | The table's type passes the assertion if and only if the sample has 1, 2 or 4 bytes: 0 bytes has no entry, and 3 bytes gets a 4-byte type. |
| `FlacDecoding.SampleTypeOf` | src/jni/src/FLACDecoder.cpp:139 | For a copyable frame the table's type has exactly the sample's width. |
| `FlacDecoding.DivisionInside` | src/jni/src/FLACDecoder.cpp:90 | Every slot below channels × samples splits into a channel below `channels` and a sample below `samples`. |
| `FlacDecoding.PositionDivision` | src/jni/src/FLACDecoder.cpp:90 | `sample * channels + channel` divided by `channels` gives the sample back; the remainder gives the channel. |
| `FlacDecoding.PositionInjective` | src/jni/src/FLACDecoder.cpp:90 | Two different (sample, channel) pairs never share a position. |
| `FlacDecoding.InterleaveSlot` | src/jni/src/FLACDecoder.cpp:90-92 | Slot `sample * channels + channel` of the interleaved array holds that channel's sample, narrowed. |
| `FlacDecoding.InterleaveRoundTrip` | src/jni/src/FLACDecoder.cpp:88-94 | De-interleaving the interleaved array gives back every channel's samples, when they fit the type. |
| `FlacDecoding.FilledStep` | src/jni/src/FLACDecoder.cpp:89-93 | Writing slot (sample, channel) extends the filled part to the next sample of that channel. The pairs already written keep their values. |
| `FlacDecoding.FilledNextChannel` | src/jni/src/FLACDecoder.cpp:88-89 | A channel filled to its last sample is the start of the next channel. |
| `FlacDecoding.FilledSlot` | src/jni/src/FLACDecoder.cpp:88-94 | Once all channels are filled, every slot below channels × samples holds the interleaved value. |
| `FlacDecoding.FilledIsInterleave` | src/jni/src/FLACDecoder.cpp:88-94 | Once all channels are filled, the first channels × samples slots are the interleaved array. |
| `FlacDecoding.ElementsSuffice` | src/jni/src/FLACDecoder.cpp:84-91 | When the assertion holds, the buffer has room for channels × samples elements. |
| `FlacDecoding.QuotientBound` | src/jni/src/FLACDecoder.cpp:91 | k elements of `size` bytes that fit in n bytes fit in n / size elements. |
| `FlacDecoding.ElementCount` | src/jni/src/FLACDecoder.cpp:83-85 | A buffer of bytes × channels × samples bytes holds exactly channels × samples elements of that many bytes. |
| `FlacDecoding.CopyToNewBuffer` | src/jni/src/FLACDecoder.cpp:81-96 | The buffer has the header's bytes per sample, channels and block size. Its element array is sized from the byte length, and its first channels × blocksize elements are the interleaved samples. |
| `FlacDecoding.BoundsAssertionIffShaped` | src/jni/src/FLACDecoder.cpp:91 | An element no wider than the sample passes the assertion on every frame shape, empty ones included. |
| `FlacDecoding.FrameBuffer` | src/jni/src/FLACDecoder.cpp:83 | A copied frame's buffer has bits / 8 bytes per sample, the header's channels and block size, and its full byte length. |
| `FlacDecoding.FlacDecoder.constructor` | src/jni/src/FLACDecoder.cpp:59-62 | A new decoder has no buffers queued, no format declared and has not reached the end of the stream. |
| `FlacDecoding.FlacDecoder.WriteCallback` | src/jni/src/FLACDecoder.cpp:138-146 | The frame's buffer is appended at the back of the queue. The declared format is bits / 8, the channels and the rate, signed, and is marked set. |
| `FlacDecoding.FlacDecoder.ProcessSingle` | src/jni/src/FLACDecoder.cpp:117-146 | The libFLAC stand-in: either end of stream, or one frame written to the queue, or a failure. A frame also sets the declared format to that frame's format. |
| `FlacDecoding.FlacDecoder.ReadMoreInternal` | src/jni/src/FLACDecoder.cpp:117-126 | Once the stream has ended, the result is an empty buffer and the queue is kept. Otherwise a queued buffer comes off the front (first in, first out). With none queued, one frame is decoded and returned. An empty buffer comes back when the stream ends or decoding fails. The stream has ended afterwards exactly when it had before or the queue and the input were both empty. A decoded frame sets the declared format; otherwise the declared format is kept. |
| `FlacDecoding.FlacDecoder.FreeBuffers` | src/jni/src/FLACDecoder.cpp:106-108 | The queue is emptied and nothing else changes. |
| `FlacDecoding.FlacDecoder.Seek` | src/jni/src/FLACDecoder.cpp:110-115 | The result is the seek's success. Only on success is the queue emptied and decoding resumed from the target. |
| `FlacDecoding.FlacDecoder.SecondsLength` | src/jni/src/FLACDecoder.cpp:132-136 | The result is -1 exactly while no frame has declared the format; otherwise it is not negative. |

## Left out

- libFLAC is not part of this model, and neither is the FLAC decoder's constructor (src/jni/src/FLACDecoder.cpp:59-79).
  - `process_single` is a stand-in that walks a given sequence of frames or decoding errors.
  - `seek_absolute` is a function parameter of `Seek`.
  - The file I/O callbacks and the Vorbis-comment callbacks are left out (src/jni/src/FLACDecoder.cpp:148-197).
- The stage classes for signedness, bit shifting, gain and resampling are not part of this model.
  - Their `calculate_required_byte_size` and `read` are function parameters of `Read`.
  - The gain factor is an opaque `real` that is only compared with 1.0.
  - `clone_with_minimum_byte_length`'s destination-format argument is left out.
- FilterManager.AudioFilterManager.Read: the decoder's format is fixed for the manager's lifetime. The decoder is a stand-in class holding the buffers it will hand out.
- FilterManager.AudioFilterManager.AddMultiplicationFilter: on a lazily allocating decoder, a gain stage added before the first read is kept. The first read's `allocate_filters` then pushes its stages behind it, so the chain can be unsorted and can hold two gain stages (`GainBeforeLazyAllocation`). The manager's invariant promises a sorted chain only when no gain stage came before allocation.
- ChannelMixing.ReadManyToOne, ChannelMixing.ReadManyToTwo: they require at least two source channels. `create` also picks them for a source with 0 channels (`ManyMixerSources`), which no decoder declares.
- FilterManager.AudioFilterManager.constructor: `dont_convert` is not initialised by the source when allocation is lazy. The model starts it at false. `read` allocates before it looks at the flag.
- FlacDecoding.FlacDecoder.SecondsLength: floating-point division is a `real` quotient. A declared rate of 0 gives 0.0 rather than the infinity or NaN of `double` division.
- FlacDecoding.FlacDecoder.WriteCallback: it requires a frame whose bytes per sample are 1, 2 or 4 and whose sample rate is positive. libFLAC does not deliver a frame with a zero rate.
  - For 24-bit frames the source's table picks a 4-byte type and the copy's assertion fails (`AllocatorTableFits`).
  - For frames under 8 bits there is a null table entry.
- `get_pcm_length_internal` (src/jni/src/FLACDecoder.cpp:128-130) is the constant `totalSamples`, which libFLAC would report.
- FlacDecoding.FlacDecoder.ProcessSingle: each call meets exactly one frame or one error. The metadata blocks libFLAC may also process in a call are left out.
- Playlists.Playlist.CycleMode: `size_t` is taken as 32 bits (the ARM Android target). A 64-bit `size_t` gives a different cursor after reducing -1.
- `Playlist.h` is not part of this model.
  - The constructor is taken to start empty with the cursor at -1.
  - `at_null_position` is taken to mean the cursor is outside the list.
- `load`, `load_playlist` and `append` (src/jni/src/Playlist.cpp:103-143) are left out: they do file-system traversal and format detection.
- `std::random_shuffle` is some permutation, chosen nondeterministically. The random order itself is not modelled.
- Playlists.Playlist.Insert: `int` overflow of the cursor or of shuffle entries is not modelled. Indices stay far below 2^31 for any list that fits in memory.

## Findings

| source | as written | input that shows it | evidently intended | confidence | as-written member | corrected member |
|---|---|---|---|---|---|---|
| src/jni/src/AudioFilter.cpp:112-113 | The stage loop calls `read` on every entry, including a null channel-mixing stage. | Stereo decoder on a six-channel device: the chain is the null mixing entry alone. | Skip null stages, as the sizing loop at lines 105-107 does. | medium, not executed | `AudioFilter.SixChannelDeviceFailsAsWritten` | `FilterManager.AudioFilterManager.RunChain` |
| src/jni/src/AudioFilter.cpp:127 | A null stage before the insertion point is dereferenced for its source format. | Stereo decoder on a six-channel device, then `add_multiplication_filter(2.0)`. | Take the format reaching that point, skipping null stages. | medium, not executed | `AudioFilter.GainAfterNullStageFailsAsWritten` | `AudioFilter.AddGain` |
| src/jni/src/AudioFilter.cpp:127 | The new gain stage is told the preceding stage's source format, which is always the decoder's format. Allocation instead gives the gain stage the format after mixing. | Mono unsigned 8-bit on a stereo signed 16-bit device, then `add_multiplication_filter(2.0)`. | The same chain as allocating with that gain. | low, not executed | `AudioFilter.GainFormatAsWritten` | `AudioFilter.AddGainMatchesAllocation` |
| src/jni/src/AudioFilter.cpp:117-129 | `dont_convert` stays set after a gain stage is inserted into an empty chain, so the gain never runs. | Equal formats with unity gain, then `add_multiplication_filter(2.0)`. | Clear `dont_convert` once the chain is not empty. | medium, not executed | `AudioFilter.GainIgnoredInPassthroughAsWritten` | `FilterManager.AudioFilterManager.AddMultiplicationFilter` |
| src/jni/src/Playlist.cpp:38, 46 | `toggle_shuffle` indexes `shuffle_vector` with the cursor even at the null position. | One track in single mode: `next` moves the cursor to 1, then `toggle_shuffle` swaps with slot 1 of a one-element vector. | Leave the cursor alone at the null position. | medium, not executed | `Playlists.ToggleAfterLastTrackAsWritten` | `Playlists.Playlist.ToggleShuffle` |

# ECG sonification core, modelled in Dafny

The repository turns a live or recorded ECG stream from a Polar chest strap
into sound:
- ECG and heart-rate frames are batched off two queues.
- The sample text is cleaned and concatenated.
- R, Q and S peaks are located and QRS durations derived from them.
- Each duration is bucketed into one of eight notes.
- Three pyo layers play along. The gong follows the RR intervals; the chime
  and the singing bowl follow the R and S amplitudes.

This project models the deterministic logic of those steps. The Bluetooth,
asyncio, neurokit2, scipy and pyo machinery around it becomes parameters or
recorded actions.

Modules (one file each, plus `common.dfy` for `Option` and the frame type):

- `Consumer` (consumer.dfy): the batching loop of `run_consumer_task` as a
  class `FrameBatcher` with `Step` and `Run`, the unbatched consumer of
  `online.py`, and the `push_out` guard.
- `Cleaning` (cleaning.dfy): the `re.sub(r'[^\d.\s]', '', ...)` filter,
  `str.split()`, Python's list rendering, and the RR payload pick.
- `QrsPairing` (qrs_pairing.dfy): for every R peak, the nearest earlier Q
  and the nearest later S, giving `(S - Q) / 50` s.
- `Recording` (recording.dfy): `signalProcessing` of the 3.0 database test.
  It concatenates the rows' samples and fills the in-place `offsets` and
  `times` lists.
- `PeakSearch` (peak_search.dfy): the offline, component and streaming peak
  extraction. It covers:
  - scipy's local-maximum scan;
  - the S and Q windows and the index shift;
  - the `k * k` list growth;
  - `zip` pairing of durations against relative times;
  - `np.diff` accumulation.
  A class `PeakExtractor` holds the lists the scripts extend.
- `NoteMapping` (note_mapping.dfy): `mapping` with the calibration (bin
  edges, overflow policy, divisor) as a parameter. The wide and narrow
  `if`/`elif` chains are proved equal to it. It also covers
  `playQRS`/`play_melody`.
- `Playback` (playback.dfy): the `TrigFunc` callbacks, modelled as follows.
  - A pyo `Counter` is a class with `next`/`out` fields.
  - Each layer is a class `Layer` with a `Fire()` method that logs the
    actions a callback performs.
  - Pure functions `Respond`, `Trigger` and `Fires` specify `Fire()` and
    carry the halting and range lemmas.
  - Methods build each script's wiring, including the rebound `beat_count`.

A pyo `Counter(min, max)` outputs `min, ..., max - 1` and then wraps; `max`
itself is never output. When a metro triggers, its counter steps before the
callback reads it, so the first read sees `min`. pyo does not check
`min < max`. A counter with `max <= min` outputs `min` on every trigger.
The scripts build such counters with `max=len(...)` on an empty list and
`max=len(...) - 1` on a one-element list, and the model accepts them.

## Model

| member | source | states |
|---|---|---|
| Consumer.Accepted | proj/taetest.py:122-133 | the number of frame pairs appended before the loop leaves: none of them is a `'QUIT'` ECG frame, and when both queues still have a frame at that point the ECG one is the sentinel |
| Consumer.WindowAt | proj/nkonline.py:136-139 | a released window holds 10 ECG frames and the first `hrTake` HR frames (10 in taetest.py, 5 in nkonline.py) |
| Consumer.Batches | proj/taetest.py:136-155 | `m` windows are released for `m` full batches |
| Consumer.FrameBatcher.constructor | proj/taetest.py:111-112 | both open lists start empty and nothing has been released |
| Consumer.FrameBatcher.Step | proj/taetest.py:124-155 | a `'QUIT'` frame stops the loop without appending. Otherwise both frames are appended to their lists, which stay the same length and below 10. At the tenth frame the pair of lists is handed off exactly as accumulated and both lists are cleared |
| Consumer.FrameBatcher.Run | proj/taetest.py:122-155 | over two queues, the loop stops iff it meets the sentinel. It takes one pair more than it appends when it stops, releases `Batches` of the accepted frames, and leaves the remaining frames, in order, in the open lists |
| Consumer.ReleaseExtends | proj/taetest.py:132-144 | releasing the next ten frames appends exactly the next window |
| Consumer.BatchesAt | proj/taetest.py:132-144 | window `k` is exactly the ten ECG frames received after the previous release, in arrival order, plus the first `hrTake` HR frames of that span |
| Consumer.BatchesConcat | proj/taetest.py:124-144 | the released ECG frames, concatenated, are the accepted frames up to the last release, and none of them is the sentinel |
| Consumer.SecondOfPayload | proj/online.py:171-172 | `data[2][1]`: the second payload element, or a failure iff the payload has fewer than two elements |
| Consumer.Handled | proj/online.py:117-121 | the number of pairs the unbatched consumer processes: no sentinel and a usable HR payload for each, and a short payload at the first unprocessed accepted pair |
| Consumer.RunUnbatched | proj/online.py:117-125 | each frame pair is processed on its own, in order, with the HR value `payload[1]`. The loop quits iff it meets the sentinel and fails iff an HR payload is too short |
| Consumer.PushOut | proj/online.py:159-169 | a pair is handed on iff its ECG item is non-empty and its RR item is positive; the positions handed on are in ascending order |
| Cleaning.Clean | proj/taetest.py:207 | `re.sub(r'[^\d.\s]', '', text)` only deletes characters, so the result is never longer than the text (its content is stated by `CleanSound`) |
| Cleaning.CleanSound | proj/taetest.py:207 | the cleaned text holds only digits, dots and whitespace, and keeps every such character of the text |
| Cleaning.CleanAppend | proj/taetest.py:207 | cleaning distributes over concatenation |
| Cleaning.CleanKeepsKept | proj/taetest.py:207 | text made of kept characters is unchanged |
| Cleaning.CleanIdempotent | proj/taetest.py:207 | cleaning twice is cleaning once |
| Cleaning.Split | proj/taetest.py:208 | `str.split()` yields at most one token per character of its input (the tokens themselves are stated by `SplitSound`) |
| Cleaning.SplitSound | proj/taetest.py:208 | every token is non-empty, free of whitespace, and made of characters of the input |
| Cleaning.CleanedTokens | proj/taetest.py:207-208 | after cleaning, every token holds only digits and dots, so no token contains a minus sign |
| Cleaning.SplitAtSpace | proj/taetest.py:208 | splitting `a + " " + b` splits `a` and `b` separately |
| Cleaning.ListTokens | proj/taetest.py:191-192 | cleaning and splitting a rendered list gives the items' tokens in item order; brackets and commas vanish |
| Cleaning.NestedListTokens | proj/taetest.py:207-208 | cleaning and splitting a rendered batch of sample lists gives every sample's tokens, frame after frame |
| Cleaning.NumberToken | proj/taetest.py:207-208 | a number without whitespace becomes one token made of its digits and dots, so `-0.5` turns into `0.5` |
| Cleaning.FirstOfPayloads | proj/nkonline.py:176 | the first payload element of every HR frame in frame order, or a failure iff some payload is empty |
| QrsPairing.NearestBefore | proj/taetest.py:225 | the greatest Q index strictly below R, present iff one exists |
| QrsPairing.NearestAfter | proj/taetest.py:226 | the least S index strictly above R, present iff one exists |
| QrsPairing.PairFor | proj/taetest.py:228-234 | an R peak yields a duration iff it has both neighbours; the duration is `(S - Q) / 50` and at least 0.04 s |
| QrsPairing.Durations | proj/taetest.py:217-234 | at most one duration per R peak, each at least 0.04 s |
| QrsPairing.ComputeQrsDurations | proj/taetest.py:217-234 | the `for r in r_peaks` loop computes `Durations` (the same loop is proj/nkonline.py:208-219, proj/online.py:195-206 and proj/db_tests/3.0melodygeneration_og.py:48-59) |
| QrsPairing.DurationsCount | proj/taetest.py:223-234 | the number of durations is the number of R peaks with both neighbours, and equals the number of R peaks iff every R peak has both |
| QrsPairing.DurationsMatchPairedPeaks | proj/taetest.py:223-234 | duration `k` belongs to the `k`-th paired R peak and equals its `(S - Q) / 50` |
| QrsPairing.NoPeaksNoDurations | proj/taetest.py:217-223 | no R peaks, no durations |
| QrsPairing.OneCycle | proj/taetest.py:225-233 | Q at 40, R at 50 and S at 65 give one duration of 0.5 s |
| Recording.RunningTotals | proj/db_tests/3.0melodygeneration_og.py:35-36 | one value appended to `offsets` per row |
| Recording.Samples | proj/db_tests/3.0melodygeneration_og.py:31-35 | the samples appended for the rows: at most one per character of the rows' ECG text, since each comes from a token of the cleaned text |
| Recording.Times | proj/db_tests/3.0melodygeneration_og.py:37 | exactly one timestamp per row |
| Recording.Offsets | proj/db_tests/3.0melodygeneration_og.py:20-36 | the offsets list holds one entry more than there are rows, and its first entry is the initial 0 |
| Recording.TimesInRowOrder | proj/db_tests/3.0melodygeneration_og.py:37 | entry `k` of the timestamps is row `k`'s time |
| Recording.RowIndex.constructor | proj/db_tests/3.0melodygeneration_og.py:20-21 | `offsets` starts as `[0]` and `times` as `[]` |
| Recording.SignalProcessing | proj/db_tests/3.0melodygeneration_og.py:28-69 | the `arr` output stands for the local array handed to `nk.ecg_process`; the script does not return it. That array is the old one plus every row's samples. `offsets` and `times` are extended in place by the running totals and the timestamps. The returned durations are the QRS pairing of the delineator's peaks, and the returned RR list is the fixed 9-element list whatever the input |
| Recording.RunningTotalsAt | proj/db_tests/3.0melodygeneration_og.py:35-36 | the `k`-th running total is the base plus the samples of the first `k + 1` rows |
| Recording.OffsetAt | proj/db_tests/3.0melodygeneration_og.py:28-36 | `offsets[k]` is the number of samples of the first `k` rows |
| Recording.OffsetsShape | proj/db_tests/3.0melodygeneration_og.py:20-36 | `offsets` has one more entry than there are rows, starts at 0, ends at the array length and never decreases |
| Recording.RowSlice | proj/db_tests/3.0melodygeneration_og.py:31-36 | consecutive offsets differ by the row's sample count, and the array between them is exactly that row's samples |
| Recording.SamplesPrefix | proj/db_tests/3.0melodygeneration_og.py:35 | the array only grows: earlier contents are a prefix of later ones |
| Recording.SingleFrame | proj/online.py:175-185 | after one frame `offsets` is `[0, n]` with `n` its sample count, and `times` holds its timestamp |
| PeakSearch.ScanPeaksSound | test/offline.py:54 | every index the scan reports is an interior sample with no higher neighbour, and the indices ascend |
| PeakSearch.ScanFindsStrictPeaks | test/offline.py:54 | every strict local maximum is reported |
| PeakSearch.PlateauEnd | test/offline.py:54 | the end of the run of equal samples that starts at `i`: it lies after `i` and at most at the last sample, and the sample there differs unless it is the last one |
| PeakSearch.PlateauFlat | test/offline.py:54 | every sample from `i` up to the plateau end equals the sample at `i` |
| PeakSearch.ScanPeaks | test/offline.py:54 | the scan from `i` reports no index before `i` and fewer peaks than samples after `i` |
| PeakSearch.AtLeast | test/offline.py:54 | the height filter keeps only candidates that reach the height |
| PeakSearch.AtLeastComplete | test/offline.py:54 | the height filter drops no candidate that reaches the height |
| PeakSearch.AtLeastIncreasing | test/offline.py:54 | the height filter keeps ascending candidates ascending |
| PeakSearch.FindPeaks | test/offline.py:54 | ascending indices of local maxima that reach the height, if one is given |
| PeakSearch.FindPeaksComplete | test/offline.py:54 | every strict local maximum of enough height is found |
| PeakSearch.ShortHasNoPeaks | test/offline.py:69 | fewer than three samples have no peak |
| PeakSearch.Window | test/offline.py:64-80 | the S window `[r+1, min(r+1+w, n))` exists iff `r+1 < n` and lies after R. The Q window `[max(0, r-w), r)` exists iff `r > 0` and ends at R. Both are at most `w` wide |
| PeakSearch.WindowGuards | test/offline.py:64-80 | the guards `start_index < len` and `end_index > 0` decide exactly whether a window is searched, and a searched window is non-empty |
| PeakSearch.Negated | test/offline.py:69 | the negated, offset window has the window's length |
| PeakSearch.HitsInWindow | test/offline.py:69-71 | every hit lies strictly inside its window, with the index shifted by the window start and the amplitude read at the unshifted position |
| PeakSearch.Hits | test/offline.py:64-84 | a window yields at most `w` hits, and none when the guard skips it |
| PeakSearch.HitBounds | test/offline.py:64-84 | shifted S indices stay after R, below the row length and within the width; shifted Q indices stay before R |
| PeakSearch.RowHitsFromWindows | test/offline.py:62-84 | every hit of a row comes from the window of one of its R peaks |
| PeakSearch.UnshiftedAmplitude | test/offline.py:69-71 | a concrete row where the reported S amplitude (5000) is not the sample at the reported S index (3) |
| PeakSearch.RelativeTimes | test/offline.py:24-26 | `(t - t0) / 1e9` per row, starting at 0; fails iff the table is empty |
| PeakSearch.RelativeTimeDifference | test/offline.py:26 | differences of relative times do not depend on the first timestamp |
| PeakSearch.ZipUpTo | test/offline.py:88-91 | `abs(t[s] - t[q]) / 100` per position-paired indices, each non-negative; fails iff an index is not a row of the time table |
| PeakSearch.ZipDurations | test/offline.py:88-91 | `zip` yields `min(len(Q), len(S))` durations, or fails on an index outside the table |
| PeakSearch.Diffs | test/signalprocessing.py:43 | `np.diff`: length `max(n - 1, 0)`, element `i` is `a[i+1] - a[i]` |
| PeakSearch.DiffsTelescope | test/signalprocessing.py:43 | the differences sum to last minus first |
| PeakSearch.DiffsPrefix | test/signalprocessing.py:43-44 | extending the amplitudes keeps the earlier differences as a prefix |
| PeakSearch.RGrowth | test/offline.py:56-58 | a row with `k` R peaks adds `k * k` amplitudes (and indices when recorded) |
| PeakSearch.WithDurations | test/offline.py:88-93 | pairing succeeds iff every paired index is a row of the time table |
| PeakSearch.ExtractPrefix | test/offline.py:56-84 | extraction only appends: the Q and S index lists after fewer rows are prefixes of later ones |
| PeakSearch.Extract | test/offline.py:47-84 | the row loop of offline.py and QRSsignalprocessing.py before pairing: it fills no durations and no RR list, and no index list for a configuration that keeps no indices |
| PeakSearch.StreamingRows | test/signalprocessing.py:30-64 | the row loop of signalprocessing.py fills no durations, and it keeps no index lists since the script records none |
| PeakSearch.OfflineResult | test/offline.py:22-95 | an empty table fails when `time[0]` is read; a success carries exactly the extracted amplitude and index lists |
| PeakSearch.ComponentResult | test_components/signalprocessing_components/QRSsignalprocessing.py:7-86 | succeeds iff the table is non-empty and every index of the final zip pairing is a row of the time table; a success carries exactly the extracted lists |
| PeakSearch.OfflineOkIffLast | test/offline.py:88-93 | every per-row pairing stays in range iff the pairing after the last row does |
| PeakSearch.OfflineFailsIffComponentFails | test/offline.py:88-93 | the per-row pairing of offline.py raises iff the single final pairing of QRSsignalprocessing.py raises |
| PeakSearch.OfflineEndsWithComponent | test_components/signalprocessing_components/QRSsignalprocessing.py:76-86 | both scripts extract the same peaks. The component's durations are exactly the last durations offline.py appends, after the re-paired earlier rows |
| PeakSearch.ComponentDurations | test_components/signalprocessing_components/QRSsignalprocessing.py:77-86 | exactly `min(len(Q), len(S))` durations, each non-negative |
| PeakSearch.StreamingRepeatsDiffs | test/signalprocessing.py:37-44 | each row appends the differences of all R amplitudes so far, so the earlier differences are appended again |
| PeakSearch.PeakExtractor.constructor | test/offline.py:29-39 | all lists start empty |
| PeakSearch.PeakExtractor.Reset | test/signalprocessing.py:20-23 | the outer pass recreates every list empty |
| PeakSearch.PeakExtractor.ExtractR | test/offline.py:54-58 | R extraction appends the peak array once per peak |
| PeakSearch.PeakExtractor.AppendPerPeak | test/offline.py:56-58 | the `for x in r_peaks` loop appends `len(r_peaks)` copies |
| PeakSearch.PeakExtractor.ExtractSide | test/offline.py:62-84 | S or Q extraction appends the hits of each R peak's window, R peak after R peak |
| PeakSearch.PeakExtractor.AppendRrDiffs | test/signalprocessing.py:43-44 | `rr_intervals_all` is extended by the differences of all R amplitudes so far |
| PeakSearch.PeakExtractor.PairDurations | test/offline.py:88-93 | the durations are extended by the zip pairing; a lookup outside the time table makes the method report failure (offline.py raises `KeyError` there, which ends the script) |
| PeakSearch.PeakExtractor.ProcessRow | test/offline.py:52-84 | one row: R, then S, then Q extraction |
| PeakSearch.PeakExtractor.StreamingPass | test/signalprocessing.py:8-68 | one outer pass: fails iff the table is empty (reading `time[0]` raises before the reset); otherwise the lists are reset and refilled row by row |
| PeakSearch.Offline | test/offline.py:22-95 | `signalProcessing` of offline.py: the extracted lists with durations re-paired after every row, or failure |
| PeakSearch.Component | test_components/signalprocessing_components/QRSsignalprocessing.py:7-86 | `signalProcessingQRS`: the extracted lists it prints, with durations paired once at the end, or failure; the function returns nothing |
| NoteMapping.Bin | proj/taetest.py:267-284 | the bin of a value is one of the eight, or none |
| NoteMapping.BinIff | proj/taetest.py:267-282 | bin `k` is `(edges[k-1], edges[k]]` and bin 0 takes everything up to `edges[0]`, in both directions |
| NoteMapping.BinAboveLastEdge | proj/taetest.py:283-284 | above the last edge a value takes the fallback note or is dropped |
| NoteMapping.BinMonotone | proj/taetest.py:267-282 | within the edges a larger value never falls in a lower bin |
| NoteMapping.NoteFor | proj/taetest.py:265-284 | every emitted note is one of the eight notes |
| NoteMapping.WideChainIsCalibration | proj/taetest.py:263-285 | the wide `if`/`elif` chain equals the table-driven mapping with eighths and fallback `notes[4]` |
| NoteMapping.NarrowChainIsCalibration | proj/db_tests/1.0melodygeneration_og.py:46-68 | the narrow chain equals the table-driven mapping that drops values above 0.1, and offline.py's chain on `item/1000` equals the same edges with divisor 1000 |
| NoteMapping.WideEdges | proj/taetest.py:267-282 | the wide edges are `(k+1)/8` |
| NoteMapping.NarrowEdges | proj/db_tests/1.0melodygeneration_og.py:50-65 | the narrow edges are `0.011875 * k` up to 0.083125 and then 0.1, so the last bin is wider |
| NoteMapping.WideExamples | proj/taetest.py:273-284 | 0.5 plays `notes[3]` (65) and values above 1 play `notes[4]` |
| NoteMapping.Mapping | proj/taetest.py:263-285 | the `events` loop computes `MapSpec` for any calibration |
| NoteMapping.MapSpec | proj/taetest.py:263-285 | at most one note per value: a value is mapped to one note or dropped |
| NoteMapping.MapAppend | test/s_qrs.py:17-40 | mapping preserves input order: it maps a concatenation part by part |
| NoteMapping.MapShape | proj/nkonline.py:249-271 | no more notes than values, every note one of `notes`; with the fallback exactly one note per value, namely that value's note |
| NoteMapping.MapDropsOnlyAboveLastEdge | test/s_qrs.py:37-40 | with the drop policy the output has one note per value iff no divided value exceeds the last edge |
| NoteMapping.ScaledQrs | proj/db_tests/1.0melodygeneration_og.py:19-20 | the first 100 QRS intervals divided by 100 |
| NoteMapping.ScaledQrsKept | proj/db_tests/1.0melodygeneration_og.py:19-20 | recorded intervals up to 10 all survive the narrow mapping |
| NoteMapping.LastOsc | proj/db_tests/1.0melodygeneration_og.py:73-77 | only the last event yields the returned oscillator. Without events, taetest.py returns the previous global `osc`; in the scripts with a local `osc` (such as the cited one) an empty event list raises `UnboundLocalError`, modelled by `prev = None` |
| NoteMapping.OnlyLastEventPlays | test/s_qrs.py:46-51 | earlier events never affect the result |
| NoteMapping.RawPitchIsNoteNumber | test/s_qrs.py:46-49 | with raw pitch the frequency in Hz is the note number |
| NoteMapping.PlayMelody | proj/taetest.py:292-299 | the oscillator loop returns `LastOsc` |
| Playback.Respond | proj/taetest.py:319-336 | a callback faults iff its lookup is out of range, and then does nothing else. It stops its metro iff it is a halting callback at the last index |
| Playback.Counter.constructor | proj/taetest.py:315 | a counter over `[min, max)` starts at `min`; any `min` and `max` are accepted, as pyo accepts them |
| Playback.Counter.Tick | proj/taetest.py:315 | a trigger outputs the next count and steps, wrapping to `min` at `max` |
| Playback.AdvanceCountAt | proj/taetest.py:315 | the `k`-th output of a counter is `min + k mod (max - min)`, and always `min` when `max <= min` |
| Playback.CountAtStuck | proj/nkonline.py:345 | a counter with `max <= min` outputs `min` at every trigger |
| Playback.Trigger | proj/taetest.py:319-336 | one trigger keeps the counter in range |
| Playback.Fires | proj/taetest.py:315-336 | `n` triggers keep the counter in range |
| Playback.FreeRunning | proj/db_tests/3.0melodygeneration_og.py:158-167 | a wrap-around gong or amplitude layer never stops, and trigger `k` reads count `k mod (max - min)` |
| Playback.FreeLog | proj/db_tests/3.0melodygeneration_og.py:158-167 | every trigger of a layer that never stops logs at least one action |
| Playback.HaltTrace | proj/taetest.py:315-336 | a halting layer over `[0, len)` runs iff fewer than `len` triggers happened, and logs the responses to counts `0 .. len-1` and nothing after |
| Playback.HaltLogStep | proj/taetest.py:319-336 | trigger `k` below `len - 1` of the halting gong logs `SigTo(v[k]/10)`, `Metro(v[k]/10)` and a play; of the halting chime (proj/taetest.py:361-374) it logs `setMul(v[k]/100)` and a play |
| Playback.HaltStopsOnce | proj/nkonline.py:309-314 | after `len` triggers the metro has been stopped exactly once, in the layer's last response, and later triggers add nothing |
| Playback.InitialInterval | test/s_gong.py:21-22 | the initial metro time is the first interval; an empty list fails |
| Playback.GongIntervals | test/s_gong.py:12 | same length as the RR values, each plus 3.5 |
| Playback.HaltNeverReadsLast | proj/taetest.py:319-336 | the halting gong and chime never program from the last value, however often the metro fires |
| Playback.AmplitudeNeverReadsLast | proj/db_tests/3.0melodygeneration_og.py:132-140 | with counter max `len - 1`, an amplitude layer never stops, never reads the last value and never faults |
| Playback.NoFault | test/s_gong.py:28-29 | the wrap-around lookup never fails on a non-empty list, and an amplitude lookup never fails when the counter stays below the length |
| Playback.WrapSchedule | proj/db_tests/3.0melodygeneration_og.py:158-165 | with the default counter, trigger `n` reads count `(n - 1) mod 100`; the gong never stops and never faults |
| Playback.SGongExample | test/s_gong.py:11-31 | the initial interval is 4.4. The first three triggers program 4.4, 4.3 and 4.7 on both SigTo and Metro |
| Playback.SGongWraps | test/s_gong.py:25-29 | the 101st trigger reads count 0 again |
| Playback.EmptyHaltFaults | proj/taetest.py:356-374 | over a batch without R peaks, `Counter(max=0)` stays at 0, which is never the last index, so the halting chime never stops and every trigger faults on its lookup |
| Playback.OneValueRepeats | test/offline.py:198-208 | over a one-element list, `Counter(max=len - 1)` stays at 0: the amplitude layer reads that element on every trigger, never stops and never faults |
| Playback.ChimeOnBowlCounter | proj/db_tests/1.0melodygeneration_og.py:117-147 | a property of the chime callback's text only, since the script drops that callback: the lookups it would make under the bowl counter's outputs stay in range iff there are at most one more S peaks than R peaks |
| Playback.Layer.constructor | proj/taetest.py:319-336 | a new layer is running with an empty log |
| Playback.Layer.Fire | proj/taetest.py:319-336 | a trigger steps the counter (when this metro drives it), then runs the callback on the count and logs its actions, as `Trigger` specifies |
| Playback.NewLayer | proj/taetest.py:313-315 | a metro with its own `Counter(min=lo, max=hi)`: a fresh running layer with an empty log and the counter at `lo` |
| Playback.HaltingLayers | proj/nkonline.py:288-363 | the gong and chime layers of taetest.py and nkonline.py, each with its own counter over the whole list, including the `Counter(max=0)` of a batch without R peaks |
| Playback.SeparateLayers | proj/db_tests/3.0melodygeneration_og.py:124-200 | separate counters: default for the gong, `len - 1` for chime and bowl, with percentage amplitudes, for lists of any length |
| Playback.OfflineLayers | test/offline.py:164-211 | the wrap-around gong and a raw-amplitude chime with counter max `len - 1` |
| Playback.SharedCounterLayers | proj/db_tests/1.0melodygeneration_og.py:92-164 | the gong reads the bowl counter, which only the bowl metro drives. The chime has no layer: line 149 rebinds `trig_update_amplitude`, the only name holding the chime's `TrigFunc` |
| Playback.GongOnChimeCounter | test_components/melodygeneration.py:94-128 | the gong reads the chime counter, which only the chime metro drives |
| Playback.BorrowedCounterInRange | test_components/melodygeneration.py:98-102 | a callback reading a counter it does not drive leaves it unchanged, and its lookup stays in range whenever that counter's range fits the list |

## Left out

- Bluetooth scanning and streaming, `main`, and the stdin reader are left out. They are device I/O.
- The asyncio queues, `create_task`, `gather` and `sleep(0)` are left out. Queues are input sequences, and the consumer runs sequentially.
- neurokit2's `ecg_process` is a parameter. Its R, Q and S index sequences are given.
- scipy's `find_peaks` is modelled only as its local-maximum scan with plateau midpoints and the `height` filter. The other parameters are not used by the scripts. As in scipy, a plateau that runs into the last sample is not a peak.
- `float(num)`, `eval(row['ecg'])`, `np.mean` and `np.std` are left out. Parsed samples are integers, and durations and thresholds are exact reals, so binary floating-point rounding near the bin edges is not modelled.
- `Cleaning.IsSpace`: only ASCII whitespace is considered. Python's `\s` and `str.split()` also accept Unicode spaces.
- `Cleaning.IsDigit`: only the ASCII digits are considered. Python's `\d` on a str pattern also matches other Unicode decimal digits.
- `midiToHz` is not evaluated: an equal-tempered frequency is the uninterpreted `MidiHz(note)`.
- pyo audio objects are left out. Players, faders and reverbs are recorded as actions. One `Play` stands for all the calls a callback makes after programming a value; in the halting gong that is `xfade.play()`, `gong_reverb.play()` and `gong_player.out()` (proj/taetest.py:334-336). test/s_gong.py has a second `TrigFunc` on the same metro, `play_gong` (test/s_gong.py:46-51). It is not modelled, so `Playback.SGongExample`'s log leaves out its plays. Timing is not modelled: when a metro fires, and how SigTo ramps. The halting gong's `s.stop()` (proj/taetest.py:327, proj/nkonline.py:313) stops the whole server, so the chime stops firing too. The model keeps the two layers independent and only logs `StopServer`.
- `Playback.SharedCounterLayers`: in 1.0melodygeneration_og.py the order in which the gong and bowl metros fire is up to the audio server. The model states what any one trigger does, not an interleaving.
- `Playback.SharedCounterLayers` and `Playback.ChimeOnBowlCounter`: the chime is dropped by pyo's object-lifetime rule. pyo removes an object from the server once its last Python reference goes, and line 149 of 1.0melodygeneration_og.py rebinds the only name holding the chime's `TrigFunc`, so that callback never runs. `ChimeOnBowlCounter` states what the callback's text would read; no layer of the model runs it.
- `Playback.HaltingLayers`, `Playback.SeparateLayers`, `Playback.OfflineLayers`, `Playback.SharedCounterLayers` and `Playback.GongOnChimeCounter` build the gong for any RR list. The scripts read `rr_intervals[0]` before they build the gong, and an empty list raises `IndexError` there. That failure is stated by `Playback.InitialInterval`, not by these methods.
- `PeakSearch.PeakExtractor.PairDurations`: offline.py appends the durations of the pairs before a failing lookup and then raises `KeyError`. The exception ends the script, so those partial appends cannot be observed. The method reports the failure and leaves the lists as they were.
- `Playback.HaltStopsOnce`: in nkonline.py, whether the `EarlyReturnException` raised in a pyo callback reaches `playSounds`' handler depends on pyo's callback thread. The raise is recorded as an action.
- `Consumer.RunUnbatched`: as written, online.py's `main` calls `run_consumer_task` with two arguments for four parameters, and `ecg_signalprocessing` indexes the frame tuple with `'ecg'`. Both raise. The model states what the loop body intends.
- `Cleaning.FirstOfPayloads`: HR frames are unpacked as four-element tuples in taetest.py and nkonline.py. The fourth element is ignored and not modelled.
- `PeakSearch.PeakExtractor.StreamingPass`: test/signalprocessing.py repeats the pass forever in `while True`. One pass is modelled, and the unused `chunk_size` is left out.
- offline.py calls `signalProcessing` four times on the same table (test/offline.py:100-103). The calls are deterministic, so one call is modelled.
- GUI, plotting, CSV and `.mat` extraction, the binaural-beat generators and random test data are left out.

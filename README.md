# john-blund, modelled in Dafny

john-blund plays a steady two-tone sound through ALSA. This project models
the two parts of src/john-blund.c that hold its behaviour:

- `fill_buffer` fills one block of N = 52000 frames (one second at 52000 Hz)
  in place. In stereo, frame i goes to slots 2i (tone1) and 2i+1 (tone2). In
  mono, slot i holds the two tones mixed. The function-static counter `last`
  carries the time index from block to block: each call adds N and then
  reduces it modulo `tone1 * tone2 * 1000`.
- `main` applies the options (volume factor, base tone, gap, mono) and sets
  `tone2 += tone1`. It allocates the buffer, opens and configures the
  playback device, and then loops for ever. Each pass fills a block, writes
  it, calls `snd_pcm_recover` once if the write failed, exits with status 1
  if the result is still negative, and reports a short write.

Modules:

- `Arith`: division facts, plus linear `Times` and `Rem` definitions.
- `CTypes`: the C integer types and the constants of the program.
- `Filler`: `fill_buffer`, as the class `PhaseFiller`, which owns the
  counter, and methods that write the caller's array in place.
- `Options`: the option switch, over options already converted to numbers.
- `Device`: a scripted stand-in for the ALSA handle. It returns results
  chosen in advance and logs every call it receives.
- `Playback`: one loop iteration (`Iterate`), the loop (`Loop`) and `main`
  from line 89 on (`Launch`). The loop is specified by `Rounds`, the list
  of iterations it performs. The infinite loop is bounded by `fuel`.

Integer widths are explicit, for an LP64 target (64-bit `long` and
`size_t`, 32-bit `int`):

- the time index `i + last` and the counter are `size_t`, reduced modulo
  2^64;
- the tones are `long`. `Launch` gets the sum of `tone2 += tone1`
  unbounded, and a sum outside the `long` range is the overflow at line 89:
  `Launch` reports `Undefined` with no calls made;
- the product `tone1 * tone2 * 1000` must be a non-zero `long` (`WrapDefined`);
  otherwise the C code divides by zero or overflows, and `Launch` reports
  `Undefined`;
- C's truncating division is `CDiv`.

## Model

| member | source | states |
|---|---|---|
| Filler.PhaseFiller.Fill | src/john-blund.c:36-56 | the first BlockSlots(ch) slots become the block for the counter on entry, the slots after them are unchanged, and the counter becomes NextLast of its old value |
| Filler.WriteStereo | src/john-blund.c:44-48 | the stereo loop writes exactly slots 0 .. 2N-1: slot 2i holds tone1 and slot 2i+1 holds tone2, both at time index last + i; later slots are untouched |
| Filler.WriteMono | src/john-blund.c:49-52 | the mono loop writes exactly slots 0 .. N-1, each with both tones mixed at time index last + i; later slots are untouched |
| Filler.PhaseFiller.constructor | src/john-blund.c:42 | the counter `last` starts at 0 |
| Filler.TimeIndex | src/john-blund.c:39 | the time index `i + last` is a size_t sum: the plain sum below 2^64, and the sum minus 2^64 above it |
| CTypes.ToSizeIsMod | src/john-blund.c:54 | converting a sum to size_t, as `i + last` and `last += N` do, reduces it modulo 2^64 |
| Filler.Period | src/john-blund.c:39 | SAMPLE_RATE / (tone) is C integer division: for a positive tone, the largest p with p * tone <= 52000; for a negative tone, minus the period of -tone |
| CTypes.CDiv | src/john-blund.c:39 | C division truncates toward zero: the magnitude of the quotient is the floor of the magnitudes, and its sign is the product of the operands' signs |
| Filler.WrapDefinedIff | src/john-blund.c:55 | `tone1 * tone2 * 1000` is defined exactly when both tones are non-zero and both products fit in a long |
| Filler.WrapModulusIsProduct | src/john-blund.c:55 | the divisor of `last %=` is tone1 * tone2 * 1000 for tones of equal sign, and 2^64 plus that negative product for tones of opposite sign |
| Filler.AdvanceIsMod | src/john-blund.c:54-55 | one call moves the counter to ((last + N) mod 2^64) mod m, which is (last + N) mod m when the sum does not wrap |
| Filler.NextLast | src/john-blund.c:54-55 | after a call the counter is always below the wrap modulus |
| Filler.StereoIsInterleaved | src/john-blund.c:44-48 | the stereo block is the two channels interleaved as L, R, L, R |
| Filler.SplitInterleave | src/john-blund.c:44-48 | taking the even and odd slots of an interleaved buffer gives back both channels |
| Filler.StereoChannelsSeparate | src/john-blund.c:44-48 | in stereo, the left channel is exactly tone1's samples and the right channel exactly tone2's |
| Filler.BlockStart | src/john-blund.c:42-55 | from the counter's initial 0 with a modulus that fits a long, block k starts at (k * N) mod m, and its frame i plays at that index plus i |
| Filler.ContiguousBlocks | src/john-blund.c:54-55 | while the counter stays below the modulus, the next block starts right after the last frame of this one |
| Filler.WrapKeepsPhaseIff | src/john-blund.c:55 | reducing the time index modulo m keeps every tone of period p in phase exactly when p divides m |
| Filler.DefaultWrapShiftsPhase | src/john-blund.c:55 | with the default tones 100 and 110, the modulus is 11000000, the periods are 520 and 472 frames, and neither period divides the modulus |
| CTypes.BlockLength | src/john-blund.c:21 | N = SAMPLE_RATE / 1000 * DURATION = 52000 |
| Options.ParseOptions | src/john-blund.c:63-89 | usage is printed exactly when an option is rejected or an operand is left over; otherwise the result is mono iff `-m` was given, tone1 is the last `-t`, tone2 is tone1 plus the last `-g`, and the volume is 0.25 times every `-v` factor |
| Device.MockDevice.OpenPlayback | src/john-blund.c:95-98 | opening returns the script's status and whether the handle came back NULL, and logs the open |
| Device.MockDevice.SetParams | src/john-blund.c:101-104 | configuring returns the script's status and logs the channel count, rate and latency passed |
| Device.MockDevice.WriteI | src/john-blund.c:109 | a write returns the script's result for the current write number, takes the buffer's samples into the log, and counts the write |
| Device.MockDevice.Recover | src/john-blund.c:111 | a recovery returns the script's result for the current recovery number and the error passed in, logs it, and counts it |
| Playback.Classify | src/john-blund.c:112-115 | a negative result is fatal with that error code; a result strictly between 0 and N is a short write with N and the result; 0 and N or more go on silently |
| Playback.Iterate | src/john-blund.c:108-115 | one pass leaves the block for the current counter in the buffer, makes the driver calls of `RoundAt` (a write, then a recovery with the write's error only if the write failed), advances the counter and the call counts, and returns that iteration's outcome |
| Playback.Loop | src/john-blund.c:107-116 | the loop's exit status, its per-iteration outcomes and its driver log are those of `Rounds`: it stops with status 1 after the first fatal iteration and never otherwise |
| Playback.RoundsEndEarly | src/john-blund.c:107-116 | the loop stops before the fuel runs out only after a fatal iteration |
| Playback.RecoverOnlyAfterFailedWrite | src/john-blund.c:109-113 | in every iteration `snd_pcm_recover` is called exactly when the write returned a negative value, with that value and the next recovery result of the script, and the iteration is fatal exactly when the result after the recovery is negative |
| Playback.RoundsStopAtFatal | src/john-blund.c:112-113 | no iteration before the last is fatal |
| Playback.RoundsAt | src/john-blund.c:107-116 | iteration j uses the counter after j blocks, the j-th write result, and as many earlier recoveries as earlier iterations needed, so the next block always follows a short write |
| Playback.RoundsFrom | src/john-blund.c:107-116 | iteration j is the iteration taken from the cursor the j earlier iterations leave behind |
| Playback.CursorAtClosed | src/john-blund.c:107-111 | after j iterations the counter has advanced j blocks, j writes were made, and one recovery for each iteration whose write failed |
| Playback.Play | src/john-blund.c:107-116 | the loop on a freshly configured device, with the counter at its initial 0 and no writes yet, ends and logs as `Rounds` from that start says |
| Playback.Step | src/john-blund.c:107-116 | one iteration keeps the loop's outcomes and log on track with `Rounds`, and a fatal iteration ends it with status 1 |
| Playback.CallsPerRound | src/john-blund.c:109-111 | each iteration makes exactly one write and at most one recovery |
| Playback.LoopNeverCloses | src/john-blund.c:107-118 | the loop only writes and recovers; `snd_pcm_close` is never called |
| Playback.RecoveryScenarios | src/john-blund.c:109-113 | when the first write fails, the loop keeps playing if the recovery succeeds and exits with status 1 if it fails |
| Playback.ShortWriteMovesOn | src/john-blund.c:114-115 | a short first write is reported with the frames written, and the second iteration writes the next block rather than the rest of the first |
| Playback.Launch | src/john-blund.c:89-119 | `main` from line 89 on ends as `MainResult` says: `Undefined` with no calls if `tone2 += tone1` overflowed, status 1 with no calls if malloc fails, status 1 after the open if it fails or yields NULL, status 1 after configuring if that fails, and otherwise the loop's ending and log after the open and the configure call |
| Playback.ToneSumOverflowUndefined | src/john-blund.c:89 | when `tone2 += tone1` overflows a `long`, `MainResult` is `Undefined` with no calls, whether or not malloc, the open and the configure would succeed; the divisor `tone1 * tone2 * 1000` would not fit a `long` either |
| Playback.MainNeverSucceeds | src/john-blund.c:89-119 | `main` never exits with status 0 |

## Left out

- The sample values are not computed. `sin`, the volume scaling and the
  double-to-uint32_t conversion are floating point, so a `Waveform`
  parameter stands in for them. The model fixes which slot gets which tone at
  which time index, not the numbers written.
- `Waveform` is total, so it hides the undefined behaviour of converting a
  `double` to `uint32_t`. A tone whose magnitude is above 52000 makes
  `SAMPLE_RATE / (tone)` zero, so every sample is NaN. A volume factor above
  1 in magnitude can push a sample outside the `uint32_t` range. `Undefined`
  covers only the integer cases: a zero tone and a `long` overflow.
- The time index is converted to `double` before the division. Rounding for
  indices above 2^53 is not modelled.
- ALSA is not modelled. `MockDevice` returns scripted results, and
  `snd_strerror` and the message texts are not part of the model.
- `arg.h` is not part of this model: walking `argv` and `strtod`/`strtol`
  are outside it. Options arrive already converted, and a missing argument
  or an unknown letter arrives as `Rejected`.
- `usage()` exiting is modelled as the `Usage` result, not as a process exit.
- `malloc` is a boolean input of `Launch`. `perror` is not modelled.
- The infinite `for (;;)` loop runs for at most `fuel` iterations.
  `Playing` means the fuel ran out while playback was still going.
- Options.ParseOptions: the volume is the exact real product of 0.25 and
  the `-v` factors. The rounding of the `double` after each `volume *=`
  (line 71) is not modelled, so `-v 0.1 -v 3` and `-v 0.3` give the same
  volume here. The tones are unbounded integers, so the parser does not
  wrap `tone2 += tone1` (line 89). `Launch` receives the unbounded sum and
  reports `Undefined` for a sum outside the `long` range
  (`ToneSumOverflowUndefined`).
- Playback.Loop, Playback.Play: the final contents of the buffer and the
  final counters are not stated. The samples of every block are in the log, inside the
  write calls, and `RoundsAt` gives the counters.
- The result of `snd_pcm_writei` is a `snd_pcm_sframes_t`, stored in
  `frames` and narrowed into the `int` `r` at line 109. The scripted result
  is an `int` (`CInt`), so the model has one variable for both: the driver's
  result is assumed to fit an `int`. It is at most the 52000 frames
  requested, or a negative error code.
- A write that returns 0 is neither fatal nor reported. The code tests
  `r > 0` before reporting a short write, and the model follows the code.
- `snd_pcm_close` and `return 0` (lines 118-119) cannot be reached, and the
  model has no member for them. `LoopNeverCloses` and `MainNeverSucceeds`
  therefore hold by construction: no member ever produces `PcmClose` or
  `Exited(0)`.
- CTypes.ToSize: the conversion to `size_t` is defined only for values less
  than 2^64 outside the `size_t` range. Every sum and product the program
  converts is in that range.

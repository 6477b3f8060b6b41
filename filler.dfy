/** `fill_buffer` (src/john-blund.c:36-56): one block of samples written in
    place into the preallocated sample buffer, and the function-static phase
    counter `last` that carries the time index from one block to the next.

    The waveform itself (`sin`, the volume scaling and the double to
    `uint32_t` conversion) is a parameter: a `Waveform` gives the sample value
    of one tone and of the two tones mixed at a time index. What is modelled
    is which slot receives which sample, at which time index, and how `last`
    moves. */
module Filler {
  import opened CTypes
  import opened Arith

  /** GEN_TONE(tone) * SMAX * volume - SMIN for one tone at time index `t`
      (`single`), and (GEN_TONE(tone1) + GEN_TONE(tone2)) * SMAX / 2 * volume
      - SMIN for the two tones mixed (`mixed`). */
  datatype Waveform = Waveform(single: (nat, int, real) -> Word, mixed: (nat, int, int, real) -> Word)

  /** The time index of frame `i` of a block that starts at `last`:
      `i + last`, a `size_t` sum. */
  function TimeIndex(last: Size, i: nat): (t: Size)
    requires i < SIZE_MOD
    ensures last + i < SIZE_MOD ==> t == last + i
    ensures last + i >= SIZE_MOD && i < SIZE_MOD ==> t == last + i - SIZE_MOD
  {
    ToSize(last + i)
  }

  /** The integer part of the sine argument, SAMPLE_RATE / (tone): one period
      of a tone lasts this many frames. */
  function Period(tone: int): (p: int)
    requires tone != 0
    ensures tone > 0 ==> p == SAMPLE_RATE / tone && p * tone <= SAMPLE_RATE < (p + 1) * tone
    ensures tone < 0 ==> p == -(SAMPLE_RATE / -tone)
  {
    if tone > 0 then
      DivBounds(SAMPLE_RATE, tone);
      CDiv(SAMPLE_RATE, tone)
    else
      CDiv(SAMPLE_RATE, tone)
  }

  /** `tone1 * tone2 * 1000` is computed in `long int`: each product must stay
      in range, and the result is used as a divisor, so it must not be 0.
      (`WrapDefinedIff` restates this with `*`.) */
  predicate WrapDefined(tone1: int, tone2: int)
  {
    && tone1 != 0 && tone2 != 0
    && LONG_MIN <= Times(tone1, tone2) <= LONG_MAX
    && LONG_MIN <= Times(tone1, tone2) * 1000 <= LONG_MAX
  }

  lemma WrapDefinedIff(tone1: int, tone2: int)
    ensures WrapDefined(tone1, tone2) <==>
      && tone1 != 0 && tone2 != 0
      && LONG_MIN <= tone1 * tone2 <= LONG_MAX
      && LONG_MIN <= tone1 * tone2 * 1000 <= LONG_MAX
  {
    TimesIsProduct(tone1, tone2);
  }

  /** The divisor of `last %= tone1 * tone2 * 1000`, converted to `size_t`
      (`WrapModulusIsProduct` restates this with `*`). */
  function WrapModulus(tone1: int, tone2: int): (m: Size)
    requires WrapDefined(tone1, tone2)
    ensures m > 0
    ensures Times(tone1, tone2) > 0 ==> m == Times(tone1, tone2) * 1000 <= LONG_MAX
    ensures Times(tone1, tone2) < 0 ==> m == SIZE_MOD + Times(tone1, tone2) * 1000
  {
    TimesIsProduct(tone1, tone2);
    ProductSign(tone1, tone2);
    ToSize(Times(tone1, tone2) * 1000)
  }

  /** For two tones of the same sign the modulus is their product times
      1000; for tones of opposite signs the negative product is converted to
      `size_t`, giving 2^64 plus that product. */
  lemma WrapModulusIsProduct(tone1: int, tone2: int)
    requires WrapDefined(tone1, tone2)
    ensures (tone1 > 0) == (tone2 > 0) ==> WrapModulus(tone1, tone2) == tone1 * tone2 * 1000 <= LONG_MAX
    ensures (tone1 > 0) != (tone2 > 0) ==> WrapModulus(tone1, tone2) == SIZE_MOD + tone1 * tone2 * 1000
  {
    TimesIsProduct(tone1, tone2);
    ProductSign(tone1, tone2);
  }

  /** `last += N; last %= m;` in `size_t` arithmetic (`AdvanceIsMod`
      restates this with `%`). */
  function Advance(last: Size, m: Size): (r: Size)
    requires m > 0
    ensures r < m
    ensures last + N < SIZE_MOD ==> r == Rem(last + N, m)
  {
    Rem(ToSize(last + N), m)
  }

  /** While the sum does not wrap, one call advances the counter by one
      block, reduced modulo m. */
  lemma AdvanceIsMod(last: Size, m: Size)
    requires m > 0
    ensures Advance(last, m) == ((last + N) % SIZE_MOD) % m
    ensures last + N < SIZE_MOD ==> Advance(last, m) == (last + N) % m
  {
    ToSizeIsMod(last + N);
    RemIsMod(ToSize(last + N), m);
  }

  /** The counter after one call of `fill_buffer`. */
  function NextLast(last: Size, tone1: int, tone2: int): (r: Size)
    requires WrapDefined(tone1, tone2)
    ensures r < WrapModulus(tone1, tone2)
  {
    Advance(last, WrapModulus(tone1, tone2))
  }

  /** The samples of one channel carrying one tone, at the time indices of
      the block that starts at `last`. */
  function Channel(wave: Waveform, volume: real, last: Size, tone: int): (s: seq<Word>)
    ensures |s| == N
  {
    seq<Word>(N, i requires 0 <= i < N => wave.single(TimeIndex(last, i), tone, volume))
  }

  /** The stereo block: slot 2i holds tone1 and slot 2i+1 tone2, both at the
      time index of frame i. */
  function StereoSlot(wave: Waveform, volume: real, last: Size, tone1: int, tone2: int, j: nat): Word
    requires j < 2 * N
  {
    var t := TimeIndex(last, j / 2);
    if j % 2 == 0 then wave.single(t, tone1, volume) else wave.single(t, tone2, volume)
  }

  function StereoBlock(wave: Waveform, volume: real, last: Size, tone1: int, tone2: int): (s: seq<Word>)
    ensures |s| == 2 * N
  {
    seq(2 * N, j requires 0 <= j < 2 * N => StereoSlot(wave, volume, last, tone1, tone2, j))
  }

  /** The mono block: slot i mixes both tones at the time index of frame i. */
  function MonoBlock(wave: Waveform, volume: real, last: Size, tone1: int, tone2: int): (s: seq<Word>)
    ensures |s| == N
  {
    seq<Word>(N, i requires 0 <= i < N => wave.mixed(TimeIndex(last, i), tone1, tone2, volume))
  }

  /** How many slots one block fills: N frames of `ch` slots each when
      `ch == 2`, and N slots for any other channel count. */
  function BlockSlots(ch: int): (n: nat)
    ensures ch == 2 ==> n == 2 * N
    ensures ch != 2 ==> n == N
  {
    if ch == 2 then 2 * N else N
  }

  /** The samples one call writes, as a function of the counter on entry. */
  function Block(wave: Waveform, volume: real, last: Size, tone1: int, tone2: int, ch: int): (s: seq<Word>)
    ensures |s| == BlockSlots(ch)
  {
    if ch == 2 then StereoBlock(wave, volume, last, tone1, tone2)
    else MonoBlock(wave, volume, last, tone1, tone2)
  }

  // ---- An independent description of interleaving, and its inverse ----

  /** Frames laid out as L, R, L, R, ... */
  function Interleave(left: seq<Word>, right: seq<Word>): (s: seq<Word>)
    requires |left| == |right|
    ensures |s| == 2 * |left|
  {
    if left == [] then []
    else [left[0], right[0]] + Interleave(left[1..], right[1..])
  }

  /** The even slots of an interleaved buffer: what the left channel plays. */
  function Evens(s: seq<Word>): (e: seq<Word>)
    ensures |e| == (|s| + 1) / 2
  {
    if |s| < 2 then s else [s[0]] + Evens(s[2..])
  }

  /** The odd slots of an interleaved buffer: what the right channel plays. */
  function Odds(s: seq<Word>): (o: seq<Word>)
    ensures |o| == |s| / 2
  {
    if |s| < 2 then [] else [s[1]] + Odds(s[2..])
  }

  lemma {:induction false} InterleaveAt(left: seq<Word>, right: seq<Word>, i: nat)
    requires |left| == |right| && i < |left|
    ensures Interleave(left, right)[2 * i] == left[i]
    ensures Interleave(left, right)[2 * i + 1] == right[i]
  {
    if i > 0 {
      InterleaveAt(left[1..], right[1..], i - 1);
    }
  }

  /** Splitting an interleaved buffer gives back both channels. */
  lemma {:induction false} SplitInterleave(left: seq<Word>, right: seq<Word>)
    requires |left| == |right|
    ensures Evens(Interleave(left, right)) == left
    ensures Odds(Interleave(left, right)) == right
  {
    if left != [] {
      var s := Interleave(left, right);
      assert s[2..] == Interleave(left[1..], right[1..]);
      SplitInterleave(left[1..], right[1..]);
      assert left == [left[0]] + left[1..];
      assert right == [right[0]] + right[1..];
    }
  }

  /** The stereo block is the two channels interleaved. */
  lemma StereoIsInterleaved(wave: Waveform, volume: real, last: Size, tone1: int, tone2: int)
    ensures StereoBlock(wave, volume, last, tone1, tone2)
         == Interleave(Channel(wave, volume, last, tone1), Channel(wave, volume, last, tone2))
  {
    var s := StereoBlock(wave, volume, last, tone1, tone2);
    var l, r := Channel(wave, volume, last, tone1), Channel(wave, volume, last, tone2);
    var t := Interleave(l, r);
    forall j | 0 <= j < 2 * N
      ensures s[j] == t[j]
    {
      InterleaveAt(l, r, j / 2);
      assert j == 2 * (j / 2) + j % 2;
    }
  }

  /** Channel separation: in stereo the left channel is exactly tone1's
      samples and the right channel exactly tone2's, so neither depends on
      the other tone. */
  lemma StereoChannelsSeparate(wave: Waveform, volume: real, last: Size, tone1: int, tone2: int)
    ensures Evens(StereoBlock(wave, volume, last, tone1, tone2)) == Channel(wave, volume, last, tone1)
    ensures Odds(StereoBlock(wave, volume, last, tone1, tone2)) == Channel(wave, volume, last, tone2)
  {
    StereoIsInterleaved(wave, volume, last, tone1, tone2);
    SplitInterleave(Channel(wave, volume, last, tone1), Channel(wave, volume, last, tone2));
  }

  // ---- The phase counter across blocks ----

  /** The counter after `k` more calls with wrap modulus `m`. */
  function Advanced(last: Size, k: nat, m: Size): (r: Size)
    requires m > 0
    ensures k > 0 ==> r < m
  {
    if k == 0 then last else Advance(Advanced(last, k - 1, m), m)
  }

  /** With a wrap modulus that fits a positive `long` (the case of two
      positive tones), block k (counting from 0 at program start) starts at time index
      (k * N) mod m, and frame
      i of it plays at that index plus i: no `size_t` sum ever wraps. */
  lemma {:induction false} BlockStart(k: nat, m: Size, i: nat)
    requires 0 < m <= LONG_MAX && i <= N
    ensures Advanced(0, k, m) == (k * N) % m
    ensures TimeIndex(Advanced(0, k, m), i) == (k * N) % m + i
  {
    if k > 0 {
      BlockStart(k - 1, m, 0);
      AdvanceIsMod(Advanced(0, k - 1, m), m);
      ModAdd((k - 1) * N, N, m);
      assert (k - 1) * N + N == k * N;
    }
  }

  /** Inside the wrap, consecutive blocks are contiguous: the next block
      starts at the time index right after this block's last frame. */
  lemma ContiguousBlocks(last: Size, m: Size)
    requires 0 < m && last + N < m
    ensures TimeIndex(Advance(last, m), 0) == TimeIndex(last, N - 1) + 1
  {
  }

  function Reduce(t: nat, m: nat): (r: nat)
    requires m > 0
    ensures r < m
  {
    t % m
  }

  /** Wrapping the time index modulo `m` leaves a tone of period `p` at the
      same point of its cycle, for every time index. */
  ghost predicate WrapKeepsPhase(m: nat, p: nat)
    requires m > 0 && p > 0
  {
    forall t: nat :: Reduce(Reduce(t, m), p) == Reduce(t, p)
  }

  /** The wrap is phase-exact precisely when the period divides the modulus. */
  lemma WrapKeepsPhaseIff(m: nat, p: nat)
    requires m > 0 && p > 0
    ensures WrapKeepsPhase(m, p) <==> m % p == 0
  {
    if m % p == 0 {
      forall t: nat
        ensures Reduce(Reduce(t, m), p) == Reduce(t, p)
      {
        var c, q := m / p, t / m;
        assert t == Reduce(t, m) + (q * c) * p;
        AddMultiple(Reduce(t, m), q * c, p);
      }
    } else {
      assert Reduce(Reduce(m, m), p) != Reduce(m, p);
    }
  }

  /** For the default tones 100 Hz and 110 Hz the wrap modulus 11000000 is
      not a multiple of either period (520 and 472 frames): every wrap shifts
      both tones' phase. */
  lemma DefaultWrapShiftsPhase()
    ensures WrapDefined(100, 110) && WrapModulus(100, 110) == 11000000
    ensures Period(100) == 520 && Period(110) == 472
    ensures !WrapKeepsPhase(WrapModulus(100, 110), Period(100))
    ensures !WrapKeepsPhase(WrapModulus(100, 110), Period(110))
  {
    WrapDefinedIff(100, 110);
    WrapModulusIsProduct(100, 110);
    WrapKeepsPhaseIff(11000000, 520);
    WrapKeepsPhaseIff(11000000, 472);
  }

  /** The stereo loop of `fill_buffer`: frame i goes to slots j = 2i and
      j + 1, and nothing past slot 2N - 1 is touched. */
  method WriteStereo(buffer: array<Word>, volume: real, last: Size, tone1: int, tone2: int, wave: Waveform)
    requires 2 * N <= buffer.Length
    modifies buffer
    ensures buffer[..2 * N] == StereoBlock(wave, volume, last, tone1, tone2)
    ensures buffer[2 * N..] == old(buffer[2 * N..])
  {
    var i, j := 0, 0;
    while i < N
      invariant 0 <= i <= N && j == 2 * i
      invariant forall k :: 0 <= k < j ==> buffer[k] == StereoSlot(wave, volume, last, tone1, tone2, k)
      invariant forall k :: j <= k < buffer.Length ==> buffer[k] == old(buffer[k])
    {
      var t := TimeIndex(last, i);
      buffer[j + 0] := wave.single(t, tone1, volume);
      buffer[j + 1] := wave.single(t, tone2, volume);
      assert j / 2 == i && j % 2 == 0 && (j + 1) / 2 == i && (j + 1) % 2 == 1;
      i, j := i + 1, j + 2;
    }
    assert buffer[..2 * N] == StereoBlock(wave, volume, last, tone1, tone2);
  }

  /** The mono loop of `fill_buffer`: slot i mixes both tones, and nothing
      past slot N - 1 is touched. */
  method WriteMono(buffer: array<Word>, volume: real, last: Size, tone1: int, tone2: int, wave: Waveform)
    requires N <= buffer.Length
    modifies buffer
    ensures buffer[..N] == MonoBlock(wave, volume, last, tone1, tone2)
    ensures buffer[N..] == old(buffer[N..])
  {
    var i := 0;
    while i < N
      invariant 0 <= i <= N
      invariant forall k :: 0 <= k < i ==> buffer[k] == wave.mixed(TimeIndex(last, k), tone1, tone2, volume)
      invariant forall k :: i <= k < buffer.Length ==> buffer[k] == old(buffer[k])
    {
      buffer[i] := wave.mixed(TimeIndex(last, i), tone1, tone2, volume);
      i := i + 1;
    }
    assert buffer[..N] == MonoBlock(wave, volume, last, tone1, tone2);
  }

  /** Owner of the `static size_t last` of `fill_buffer`. */
  class PhaseFiller {
    var last: Size

    constructor ()
      ensures last == 0
    {
      last := 0;
    }

    /** fill_buffer(buffer, volume, tone1, tone2, ch). The C code writes
        `buffer[0 .. 2N)` when `ch == 2` and `buffer[0 .. N)` otherwise, so the
        caller must have allocated at least that many slots; it divides by
        both tones and by their product. */
    method Fill(buffer: array<Word>, volume: real, tone1: int, tone2: int, ch: int, wave: Waveform)
      requires WrapDefined(tone1, tone2)
      requires BlockSlots(ch) <= buffer.Length
      modifies this, buffer
      ensures buffer[..BlockSlots(ch)] == Block(wave, volume, old(last), tone1, tone2, ch)
      ensures buffer[BlockSlots(ch)..] == old(buffer[BlockSlots(ch)..])
      ensures last == NextLast(old(last), tone1, tone2)
    {
      if ch == 2 {
        WriteStereo(buffer, volume, last, tone1, tone2, wave);
      } else {
        WriteMono(buffer, volume, last, tone1, tone2, wave);
      }
      AdvanceIsMod(last, WrapModulus(tone1, tone2));
      last := (last + N) % SIZE_MOD;
      last := last % WrapModulus(tone1, tone2);
    }
  }
}

/** The playback part of `main` (src/john-blund.c:89-119): buffer
    allocation, opening and configuring the device, and the endless loop that
    fills a block, writes it, recovers once from a failed write and reports
    short writes. The `for (;;)` loop is run for at most `fuel` iterations. */
module Playback {
  import Arith
  import opened CTypes
  import opened Filler
  import opened Options
  import opened Device

  /** How one loop iteration ends: silently, with the short-write message
      (expected N frames, wrote `wrote`), or fatally with the error code
      that `main` reports before it returns 1. */
  datatype Outcome = Continue | ShortWrite(expected: int, wrote: int) | Fatal(code: int)

  /** Whether `snd_pcm_recover` was called, and what it returned. */
  datatype Recovery = NotNeeded | Recovered(result: CInt)

  /** One loop iteration as data: the samples handed to the device, the
      result of the write, the recovery and the outcome. */
  datatype Round = Round(samples: seq<Word>, written: CInt, recovery: Recovery, outcome: Outcome)

  /** Where the loop stands before an iteration: the phase counter of
      `fill_buffer`, and how many writes and recoveries the device has seen. */
  datatype Cursor = Cursor(last: Size, writes: nat, recovers: nat)

  /** How `main` ends, as far as the bounded model runs it: with an exit
      status, still playing when the fuel runs out, or in undefined behaviour
      (the signed overflow of `tone2 += tone1`, or a division by zero or a
      signed overflow in `fill_buffer`). */
  datatype Exit = Exited(status: int) | Playing | Undefined

  /** The decision taken on `r`, the write's result after the optional
      recovery (lines 112-115). */
  function Classify(r: int): (o: Outcome)
    ensures o.Fatal? <==> r < 0
    ensures o.Fatal? ==> o.code == r
    ensures o.ShortWrite? <==> 0 < r < N
    ensures o.ShortWrite? ==> o.expected == N && o.wrote == r
    ensures o.Continue? <==> r == 0 || r >= N
  {
    if r < 0 then Fatal(r)
    else if r > 0 && r < N then ShortWrite(N, r)
    else Continue
  }

  /** The value of `r` once the optional recovery is done. */
  function Settled(written: CInt, recovery: Recovery): CInt
  {
    if recovery.Recovered? then recovery.result else written
  }

  /** The iteration the loop performs from cursor `c`. */
  function RoundAt(s: Settings, wave: Waveform, script: Script, c: Cursor): (r: Round)
  {
    var samples := Block(wave, s.volume, c.last, s.tone1, s.tone2, s.channels);
    var x := script.write(c.writes);
    var recovery := if x < 0 then Recovered(script.recover(c.recovers, x)) else NotNeeded;
    Round(samples, x, recovery, Classify(Settled(x, recovery)))
  }

  /** The cursor after the iteration `r` taken from `c`. */
  function After(s: Settings, c: Cursor, r: Round): (c': Cursor)
    requires WrapDefined(s.tone1, s.tone2)
    ensures c'.writes == c.writes + 1
    ensures c'.recovers == c.recovers + (if r.recovery.Recovered? then 1 else 0)
    ensures c'.last == NextLast(c.last, s.tone1, s.tone2)
  {
    Cursor(NextLast(c.last, s.tone1, s.tone2), c.writes + 1, if r.recovery.Recovered? then c.recovers + 1 else c.recovers)
  }

  /** The driver calls of one iteration: the write, then the recovery with
      the write's error code if the write failed. */
  function RoundCalls(r: Round): (calls: seq<Call>)
    ensures |calls| == if r.recovery.Recovered? then 2 else 1
    ensures calls[0] == PcmWritei(r.samples, N)
    ensures r.recovery.Recovered? ==> calls[1] == PcmRecover(r.written)
  {
    [PcmWritei(r.samples, N)] + if r.recovery.Recovered? then [PcmRecover(r.written)] else []
  }

  /** The driver calls of the iterations `rs`, in order. */
  function Calls(rs: seq<Round>): seq<Call>
  {
    if rs == [] then [] else RoundCalls(rs[0]) + Calls(rs[1..])
  }

  /** The iterations of the loop, given `fuel` of them: the loop stops after
      the first fatal one (`RoundsEndEarly`, `RoundsStopAtFatal`). */
  function Rounds(s: Settings, wave: Waveform, script: Script, c: Cursor, fuel: nat): (rs: seq<Round>)
    requires WrapDefined(s.tone1, s.tone2)
    ensures |rs| <= fuel
    decreases fuel
  {
    if fuel == 0 then []
    else
      var r := RoundAt(s, wave, script, c);
      if r.outcome.Fatal? then [r]
      else [r] + Rounds(s, wave, script, After(s, c, r), fuel - 1)
  }

  /** Only a fatal iteration stops the loop before the fuel runs out. */
  lemma {:induction false} RoundsEndEarly(s: Settings, wave: Waveform, script: Script, c: Cursor, fuel: nat)
    requires WrapDefined(s.tone1, s.tone2)
    ensures var rs := Rounds(s, wave, script, c, fuel);
      |rs| < fuel ==> |rs| > 0 && rs[|rs| - 1].outcome.Fatal?
    decreases fuel
  {
    if fuel > 0 {
      var r := RoundAt(s, wave, script, c);
      if !r.outcome.Fatal? {
        var rest := Rounds(s, wave, script, After(s, c, r), fuel - 1);
        RoundsEndEarly(s, wave, script, After(s, c, r), fuel - 1);
        assert Rounds(s, wave, script, c, fuel) == [r] + rest;
        if |rest| > 0 {
          assert ([r] + rest)[|rest|] == rest[|rest| - 1];
        }
      }
    }
  }

  /** Every iteration calls `snd_pcm_recover` exactly when its write failed,
      and is fatal exactly when the result after that recovery is negative
      (lines 109-113). */
  lemma RecoverOnlyAfterFailedWrite(s: Settings, wave: Waveform, script: Script, c: Cursor, fuel: nat, j: nat)
    requires WrapDefined(s.tone1, s.tone2)
    requires j < |Rounds(s, wave, script, c, fuel)|
    ensures var r := Rounds(s, wave, script, c, fuel)[j];
      && (r.recovery.Recovered? <==> r.written < 0)
      && (r.recovery.Recovered? ==> r.recovery.result == script.recover(c.recovers + Recoveries(Rounds(s, wave, script, c, fuel)[..j]), r.written))
      && (r.outcome.Fatal? <==> Settled(r.written, r.recovery) < 0)
  {
    RoundsAt(s, wave, script, c, fuel, j);
  }

  /** Only the last iteration can be fatal: the loop never goes on after a
      failed write whose recovery failed too. */
  lemma {:induction false} RoundsStopAtFatal(s: Settings, wave: Waveform, script: Script, c: Cursor, fuel: nat, j: nat)
    requires WrapDefined(s.tone1, s.tone2)
    requires j + 1 < |Rounds(s, wave, script, c, fuel)|
    ensures !Rounds(s, wave, script, c, fuel)[j].outcome.Fatal?
    decreases fuel
  {
    var rs := Rounds(s, wave, script, c, fuel);
    var rest := Rounds(s, wave, script, After(s, c, rs[0]), fuel - 1);
    assert rs == [rs[0]] + rest;
    if j > 0 {
      RoundsStopAtFatal(s, wave, script, After(s, c, rs[0]), fuel - 1, j - 1);
      assert rs[j] == rest[j - 1];
    }
  }

  /** How the loop ends after the iterations `rs`. */
  function Ending(rs: seq<Round>): Exit
  {
    if |rs| > 0 && rs[|rs| - 1].outcome.Fatal? then Exited(1) else Playing
  }

  /** What each iteration decided. */
  function Outcomes(rs: seq<Round>): (os: seq<Outcome>)
    ensures |os| == |rs|
  {
    if rs == [] then [] else [rs[0].outcome] + Outcomes(rs[1..])
  }

  /** How many of the iterations called `snd_pcm_recover`. */
  function Recoveries(rs: seq<Round>): nat
  {
    if rs == [] then 0
    else (if rs[0].recovery.Recovered? then 1 else 0) + Recoveries(rs[1..])
  }

  /** One pass of the `for (;;)` body (lines 108-115). */
  method Iterate(buffer: array<Word>, filler: PhaseFiller, dev: MockDevice, s: Settings, wave: Waveform)
    returns (o: Outcome)
    requires WrapDefined(s.tone1, s.tone2)
    requires buffer.Length == BlockSlots(s.channels)
    modifies buffer, filler, dev
    ensures var c := Cursor(old(filler.last), old(dev.writes), old(dev.recovers));
      var r := RoundAt(s, wave, dev.script, c);
      && o == r.outcome
      && (forall k :: 0 <= k < buffer.Length ==> buffer[k] == r.samples[k])
      && Cursor(filler.last, dev.writes, dev.recovers) == After(s, c, r)
      && dev.log == old(dev.log) + RoundCalls(r)
  {
    filler.Fill(buffer, s.volume, s.tone1, s.tone2, s.channels, wave);
    ghost var block := Block(wave, s.volume, old(filler.last), s.tone1, s.tone2, s.channels);
    assert buffer[..] == block;
    assert forall k :: 0 <= k < buffer.Length ==> buffer[k] == block[k];
    var frames := dev.WriteI(buffer, N);
    var r := frames;
    if frames < 0 {
      frames := dev.Recover(r);
      r := frames;
    }
    if r < 0 {
      return Fatal(r);
    }
    if r > 0 && r < N {
      return ShortWrite(N, frames);
    }
    return Continue;
  }

  /** The `for (;;)` loop, run for at most `fuel` iterations. It leaves only
      through a fatal iteration, with status 1. The samples of every block
      are in the log, in the write calls. */
  method Loop(buffer: array<Word>, filler: PhaseFiller, dev: MockDevice, s: Settings, wave: Waveform, fuel: nat)
    returns (exit: Exit, outcomes: seq<Outcome>)
    requires WrapDefined(s.tone1, s.tone2)
    requires buffer.Length == BlockSlots(s.channels)
    modifies buffer, filler, dev
    ensures var rs := Rounds(s, wave, dev.script, Cursor(old(filler.last), old(dev.writes), old(dev.recovers)), fuel);
      && exit == Ending(rs)
      && outcomes == Outcomes(rs)
      && dev.log == old(dev.log) + Calls(rs)
  {
    ghost var cur := Cursor(filler.last, dev.writes, dev.recovers);
    ghost var all := Rounds(s, wave, dev.script, cur, fuel);
    var i := 0;
    outcomes := [];
    while i < fuel
      invariant 0 <= i <= fuel
      invariant cur == Cursor(filler.last, dev.writes, dev.recovers)
      invariant Behind(all, Rounds(s, wave, dev.script, cur, fuel - i), outcomes, old(dev.log), dev.log)
    {
      ghost var r := RoundAt(s, wave, dev.script, cur);
      Step(s, wave, dev.script, cur, fuel - i, all, outcomes, old(dev.log), dev.log);
      var o := Iterate(buffer, filler, dev, s, wave);
      outcomes := outcomes + [o];
      if o.Fatal? {
        exit := Exited(1);
        return;
      }
      cur := After(s, cur, r);
      i := i + 1;
    }
    LoopEnd(all, outcomes, old(dev.log), dev.log);
    exit := Playing;
  }

  /** The loop is on track: the iterations `rest` still ahead of it finish
      what the iterations `all` describe, given the outcomes and the log so
      far. */
  ghost predicate Behind(all: seq<Round>, rest: seq<Round>, outcomes: seq<Outcome>, log0: seq<Call>, log: seq<Call>)
  {
    && Ending(all) == Ending(rest)
    && Outcomes(all) == outcomes + Outcomes(rest)
    && log0 + Calls(all) == log + Calls(rest)
  }

  /** Taking one iteration keeps the loop on track, and a fatal one leaves
      nothing ahead. */
  lemma Step(s: Settings, wave: Waveform, script: Script, c: Cursor, k: nat,
             all: seq<Round>, outcomes: seq<Outcome>, log0: seq<Call>, log: seq<Call>)
    requires WrapDefined(s.tone1, s.tone2) && k > 0
    requires Behind(all, Rounds(s, wave, script, c, k), outcomes, log0, log)
    ensures var r := RoundAt(s, wave, script, c);
      if r.outcome.Fatal? then
        Ending(all) == Exited(1) && Outcomes(all) == outcomes + [r.outcome] && log0 + Calls(all) == log + RoundCalls(r)
      else Behind(all, Rounds(s, wave, script, After(s, c, r), k - 1), outcomes + [r.outcome], log0, log + RoundCalls(r))
  {
    var r := RoundAt(s, wave, script, c);
    var rest := if r.outcome.Fatal? then [] else Rounds(s, wave, script, After(s, c, r), k - 1);
    Unroll(s, wave, script, c, k);
    Front(r, rest);
    Regroup(log, RoundCalls(r), Calls(rest));
    Regroup(outcomes, [r.outcome], Outcomes(rest));
  }

  /** The first iteration of `Rounds`, split off the rest. */
  lemma Unroll(s: Settings, wave: Waveform, script: Script, c: Cursor, k: nat)
    requires WrapDefined(s.tone1, s.tone2) && k > 0
    ensures var r := RoundAt(s, wave, script, c);
      Rounds(s, wave, script, c, k)
      == [r] + if r.outcome.Fatal? then [] else Rounds(s, wave, script, After(s, c, r), k - 1)
  {
  }

  lemma Regroup<T>(a: seq<T>, b: seq<T>, c: seq<T>)
    ensures a + (b + c) == (a + b) + c
    ensures a + [] == a
  {
  }

  /** With nothing ahead, the loop has done all of it. */
  lemma LoopEnd(all: seq<Round>, outcomes: seq<Outcome>, log0: seq<Call>, log: seq<Call>)
    requires Behind(all, [], outcomes, log0, log)
    ensures Ending(all) == Playing && Outcomes(all) == outcomes && log0 + Calls(all) == log
  {
  }

  /** The summaries of a sequence of iterations, split after its first. */
  lemma Front(r: Round, rest: seq<Round>)
    ensures Calls([r] + rest) == RoundCalls(r) + Calls(rest)
    ensures Outcomes([r] + rest) == [r.outcome] + Outcomes(rest)
    ensures Recoveries([r] + rest) == (if r.recovery.Recovered? then 1 else 0) + Recoveries(rest)
    ensures Ending([r] + rest) == if rest == [] then Ending([r]) else Ending(rest)
    ensures Calls([]) == [] && Outcomes([]) == []
  {
  }

  /** The loop of `main` on a freshly configured device: the counter
      `last` of `fill_buffer` starts at 0, and the device has not been
      written to yet. */
  method Play(buffer: array<Word>, dev: MockDevice, s: Settings, wave: Waveform, fuel: nat) returns (exit: Exit)
    requires WrapDefined(s.tone1, s.tone2)
    requires buffer.Length == BlockSlots(s.channels)
    requires dev.writes == 0 && dev.recovers == 0
    modifies buffer, dev
    ensures var rs := Rounds(s, wave, dev.script, Cursor(0, 0, 0), fuel);
      exit == Ending(rs) && dev.log == old(dev.log) + Calls(rs)
  {
    var filler := new PhaseFiller();
    var outcomes;
    exit, outcomes := Loop(buffer, filler, dev, s, wave, fuel);
  }

  /** What `main` does from line 89 on, for settings the option parser
      accepted: the exit status and the driver calls. `s.tone2` is the sum of
      `tone2 += tone1` taken without bound, so a sum outside the `long` range
      is the overflow of line 89, undefined before anything else happens.
      `allocates` says whether `malloc` succeeds. Opening or configuring the
      device fails on a negative status (or a NULL handle), and each failure
      ends with status 1 before anything is played. */
  function MainResult(s: Settings, allocates: bool, script: Script, wave: Waveform, fuel: nat): (Exit, seq<Call>)
  {
    var configured := [PcmOpen, PcmSetParams(s.channels, SAMPLE_RATE, LATENCY)];
    if !(LONG_MIN <= s.tone2 <= LONG_MAX) then (Undefined, [])
    else if !allocates then (Exited(1), [])
    else if script.open < 0 || script.openGivesNull then (Exited(1), [PcmOpen])
    else if script.configure < 0 then (Exited(1), configured)
    else if !WrapDefined(s.tone1, s.tone2) then (Undefined, configured)
    else
      var rs := Rounds(s, wave, script, Cursor(0, 0, 0), fuel);
      (Ending(rs), configured + Calls(rs))
  }

  /** `main` never exits with status 0: every way out is an error. */
  lemma MainNeverSucceeds(s: Settings, allocates: bool, script: Script, wave: Waveform, fuel: nat)
    ensures MainResult(s, allocates, script, wave, fuel).0 != Exited(0)
  {
  }

  /** When `tone2 += tone1` (line 89) overflows a `long`, `main` is
      undefined whatever the allocation and the device do, and the divisor
      `tone1 * tone2 * 1000` of `fill_buffer` would not be a `long` either. */
  lemma {:induction false} ToneSumOverflowUndefined(s: Settings, tone1: Long, gap: Long,
                                                     allocates: bool, script: Script, wave: Waveform, fuel: nat)
    requires s.tone1 == tone1 && s.tone2 == tone1 + gap
    requires !(LONG_MIN <= tone1 + gap <= LONG_MAX)
    ensures MainResult(s, allocates, script, wave, fuel) == (Undefined, [])
    ensures !WrapDefined(tone1, tone1 + gap)
  {
    var t1: int, t2: int := tone1, tone1 + gap;
    Arith.TimesIsProduct(t1, t2);
    Arith.ProductAtLeast(t1, t2);
  }

  /** Lines 89-119: allocate N * channels samples, open and configure the
      device, then loop. */
  method Launch(s: Settings, allocates: bool, script: Script, wave: Waveform, fuel: nat)
    returns (exit: Exit, calls: seq<Call>)
    requires s.channels == 1 || s.channels == 2
    ensures (exit, calls) == MainResult(s, allocates, script, wave, fuel)
  {
    if !(LONG_MIN <= s.tone2 <= LONG_MAX) {
      return Undefined, [];
    }
    if !allocates {
      return Exited(1), [];
    }
    var buffer := new Word[N * s.channels];
    var dev := new MockDevice(script);
    var r, isNull := dev.OpenPlayback();
    assert dev.log == [PcmOpen];
    if r < 0 || isNull {
      return Exited(1), dev.log;
    }
    r := dev.SetParams(s.channels, SAMPLE_RATE, LATENCY);
    assert dev.log == [PcmOpen, PcmSetParams(s.channels, SAMPLE_RATE, LATENCY)];
    if r < 0 {
      return Exited(1), dev.log;
    }
    if !WrapDefined(s.tone1, s.tone2) {
      return Undefined, dev.log;
    }
    exit := Play(buffer, dev, s, wave, fuel);
    calls := dev.log;
  }

  // ---- What the loop promises, over any number of iterations ----

  /** `snd_pcm_close` (line 118) is never reached: no iteration closes the
      device, and every call the loop makes is a write or a recovery. */
  lemma {:induction false} LoopNeverCloses(rs: seq<Round>)
    ensures forall c :: c in Calls(rs) ==> c.PcmWritei? || c.PcmRecover?
    ensures PcmClose !in Calls(rs)
  {
    if rs != [] {
      LoopNeverCloses(rs[1..]);
    }
  }

  /** Each iteration writes once and recovers at most once. */
  lemma {:induction false} CallsPerRound(rs: seq<Round>)
    ensures |Calls(rs)| == |rs| + Recoveries(rs)
    ensures Recoveries(rs) <= |rs|
  {
    if rs != [] {
      CallsPerRound(rs[1..]);
    }
  }

  /** The first iteration, then the iterations run from the cursor it
      leaves behind. */
  lemma RoundsTail(s: Settings, wave: Waveform, script: Script, c: Cursor, fuel: nat, j: nat)
    requires WrapDefined(s.tone1, s.tone2)
    requires 0 < j < |Rounds(s, wave, script, c, fuel)|
    ensures var rs := Rounds(s, wave, script, c, fuel);
      var rest := Rounds(s, wave, script, After(s, c, rs[0]), fuel - 1);
      rs[1..] == rest && rs[j] == rest[j - 1]
  {
  }

  /** The cursor in front of iteration j of `rs`, taken from `c`: the cursor
      that the loop carries from one iteration to the next. */
  function CursorAt(s: Settings, c: Cursor, rs: seq<Round>, j: nat): Cursor
    requires WrapDefined(s.tone1, s.tone2)
    requires j <= |rs|
    decreases j
  {
    if j == 0 then c else CursorAt(s, After(s, c, rs[0]), rs[1..], j - 1)
  }

  lemma CursorAtFront(s: Settings, c: Cursor, rs: seq<Round>, j: nat)
    requires WrapDefined(s.tone1, s.tone2)
    requires 0 < j <= |rs|
    ensures CursorAt(s, c, rs, j) == CursorAt(s, After(s, c, rs[0]), rs[1..], j - 1)
  {
  }

  /** Iteration j is the iteration taken from the cursor the j earlier
      iterations leave behind. */
  lemma {:induction false} RoundsFrom(s: Settings, wave: Waveform, script: Script, c: Cursor, fuel: nat, j: nat)
    requires WrapDefined(s.tone1, s.tone2)
    requires j < |Rounds(s, wave, script, c, fuel)|
    ensures var rs := Rounds(s, wave, script, c, fuel);
      rs[j] == RoundAt(s, wave, script, CursorAt(s, c, rs, j))
    decreases j
  {
    if j > 0 {
      var rs := Rounds(s, wave, script, c, fuel);
      var rest := Rounds(s, wave, script, After(s, c, rs[0]), fuel - 1);
      RoundsTail(s, wave, script, c, fuel, j);
      RoundsFrom(s, wave, script, After(s, c, rs[0]), fuel - 1, j - 1);
      CursorAtFront(s, c, rs, j);
    }
  }

  /** After j iterations the counter has advanced by j blocks, j more writes
      were made, and one more recovery for each iteration that needed one. */
  lemma {:induction false} CursorAtClosed(s: Settings, c: Cursor, rs: seq<Round>, j: nat)
    requires WrapDefined(s.tone1, s.tone2)
    requires j <= |rs|
    ensures CursorAt(s, c, rs, j)
      == Cursor(Advanced(c.last, j, WrapModulus(s.tone1, s.tone2)), c.writes + j, c.recovers + Recoveries(rs[..j]))
    decreases j
  {
    if j > 0 {
      CursorAtClosed(s, After(s, c, rs[0]), rs[1..], j - 1);
      assert rs[..j] == [rs[0]] + rs[1..][..j - 1];
      CursorStep(s, c, rs[0], rs[1..][..j - 1], j);
    }
  }

  /** Iteration j of the loop is the iteration taken at the counter after j
      blocks, with j more writes and the earlier iterations' recoveries
      behind it. So a recovery happens exactly after a failed write and gets
      that write's error code, and a short write is not resubmitted: the next
      iteration always writes the next block. */
  lemma RoundsAt(s: Settings, wave: Waveform, script: Script, c: Cursor, fuel: nat, j: nat)
    requires WrapDefined(s.tone1, s.tone2)
    requires j < |Rounds(s, wave, script, c, fuel)|
    ensures var rs := Rounds(s, wave, script, c, fuel);
      rs[j] == RoundAt(s, wave, script,
                       Cursor(Advanced(c.last, j, WrapModulus(s.tone1, s.tone2)), c.writes + j, c.recovers + Recoveries(rs[..j])))
  {
    RoundsFrom(s, wave, script, c, fuel, j);
    CursorAtClosed(s, c, Rounds(s, wave, script, c, fuel), j);
  }

  /** The cursor of iteration j - 1 counted from the second iteration is the
      cursor of iteration j counted from the first. */
  lemma CursorStep(s: Settings, c: Cursor, r: Round, earlier: seq<Round>, j: nat)
    requires WrapDefined(s.tone1, s.tone2) && j > 0
    ensures var c', m := After(s, c, r), WrapModulus(s.tone1, s.tone2);
      Cursor(Advanced(c'.last, j - 1, m), c'.writes + (j - 1), c'.recovers + Recoveries(earlier))
      == Cursor(Advanced(c.last, j, m), c.writes + j, c.recovers + Recoveries([r] + earlier))
  {
  }

  /** The failed first write: a recovery that succeeds keeps playing, one
      that fails exits with status 1. */
  lemma RecoveryScenarios(s: Settings, wave: Waveform, script: Script)
    requires WrapDefined(s.tone1, s.tone2)
    requires script.write(0) < 0
    ensures script.recover(0, script.write(0)) >= 0
      ==> Ending(Rounds(s, wave, script, Cursor(0, 0, 0), 1)) == Playing
    ensures script.recover(0, script.write(0)) < 0
      ==> Ending(Rounds(s, wave, script, Cursor(0, 0, 0), 1)) == Exited(1)
  {
  }

  /** A short first write is reported with the frame count the device took,
      and the next iteration writes the next block: the rest of the short
      block is not submitted again. */
  lemma ShortWriteMovesOn(s: Settings, wave: Waveform, script: Script)
    requires WrapDefined(s.tone1, s.tone2)
    requires 0 < script.write(0) < N
    ensures var rs := Rounds(s, wave, script, Cursor(0, 0, 0), 2);
      && |rs| == 2
      && rs[0].outcome == ShortWrite(N, script.write(0))
      && rs[1].samples == Block(wave, s.volume, NextLast(0, s.tone1, s.tone2), s.tone1, s.tone2, s.channels)
  {
  }
}

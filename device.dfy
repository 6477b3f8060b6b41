/** A stand-in for the ALSA playback handle: every driver call returns a
    value chosen in advance by a script, and the handle records the calls it
    receives. Nothing here models what a real sound card does. */
module Device {
  import opened CTypes

  /** The results the mock driver gives. `write(k)` is the result of the k-th
      `snd_pcm_writei` (a frame count, or a negative error code) and
      `recover(k, err)` that of the k-th `snd_pcm_recover`, called with the
      error code `err`; both calls are counted from 0. */
  datatype Script = Script(
    open: CInt,
    openGivesNull: bool,
    configure: CInt,
    write: nat -> CInt,
    recover: (nat, CInt) -> CInt)

  /** A driver call as the handle saw it. */
  datatype Call =
    | PcmOpen
    | PcmSetParams(channels: int, rate: int, latency: int)
    | PcmWritei(samples: seq<Word>, frames: int)
    | PcmRecover(err: int)
    | PcmClose

  class MockDevice {
    const script: Script
    var writes: nat
    var recovers: nat
    var log: seq<Call>

    constructor (script: Script)
      ensures this.script == script
      ensures writes == 0 && recovers == 0 && log == []
    {
      this.script := script;
      writes, recovers, log := 0, 0, [];
    }

    /** snd_pcm_open(&handle, "default", SND_PCM_STREAM_PLAYBACK, 0): the
        status, and whether the handle came back NULL. */
    method OpenPlayback() returns (r: CInt, isNull: bool)
      modifies this`log
      ensures r == script.open && isNull == script.openGivesNull
      ensures log == old(log) + [PcmOpen]
    {
      r, isNull := script.open, script.openGivesNull;
      log := log + [PcmOpen];
    }

    /** snd_pcm_set_params with the unsigned 32-bit interleaved format,
        resampling allowed. */
    method SetParams(channels: int, rate: int, latency: int) returns (r: CInt)
      modifies this`log
      ensures r == script.configure
      ensures log == old(log) + [PcmSetParams(channels, rate, latency)]
    {
      r := script.configure;
      log := log + [PcmSetParams(channels, rate, latency)];
    }

    /** snd_pcm_writei(handle, buffer, frames): the device takes the buffer's
        samples. */
    method WriteI(buffer: array<Word>, frames: int) returns (r: CInt)
      modifies this`writes, this`log
      ensures r == script.write(old(writes))
      ensures writes == old(writes) + 1
      ensures log == old(log) + [PcmWritei(buffer[..], frames)]
    {
      r := script.write(writes);
      writes := writes + 1;
      log := log + [PcmWritei(buffer[..], frames)];
    }

    /** snd_pcm_recover(handle, err, 0). */
    method Recover(err: CInt) returns (r: CInt)
      modifies this`recovers, this`log
      ensures r == script.recover(old(recovers), err)
      ensures recovers == old(recovers) + 1
      ensures log == old(log) + [PcmRecover(err)]
    {
      r := script.recover(recovers, err);
      recovers := recovers + 1;
      log := log + [PcmRecover(err)];
    }
  }
}

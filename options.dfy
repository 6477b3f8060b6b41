/** The effect of the command-line options on the playback parameters
    (src/john-blund.c:63-89). Turning the argument strings into numbers
    (`strtod`, `strtol`) and walking `argv` belong to the excluded argument
    parser: an option arrives here already converted. */
module Options {
  import opened CTypes

  /** One option, with its argument already converted. `Rejected` stands for
      an unknown option letter or an option whose argument is missing; both
      end in `usage()`. */
  datatype Flag = Volume(factor: real) | BaseTone(hz: Long) | Gap(hz: Long) | Mono | Rejected

  /** What the playback loop is started with. */
  datatype Settings = Settings(volume: real, tone1: int, tone2: int, channels: int)

  datatype Parsed = Run(settings: Settings) | Usage

  const DEFAULT_VOLUME: real := 0.25
  const DEFAULT_TONE: int := 100
  const DEFAULT_GAP: int := 10

  /** The value of the last `-t` option, or the default. */
  function LastBaseTone(flags: seq<Flag>): int
  {
    if flags == [] then DEFAULT_TONE
    else if flags[|flags| - 1].BaseTone? then flags[|flags| - 1].hz
    else LastBaseTone(flags[..|flags| - 1])
  }

  /** The value of the last `-g` option, or the default. */
  function LastGap(flags: seq<Flag>): int
  {
    if flags == [] then DEFAULT_GAP
    else if flags[|flags| - 1].Gap? then flags[|flags| - 1].hz
    else LastGap(flags[..|flags| - 1])
  }

  /** The product of all `-v` factors: each `-v` multiplies the volume. */
  function VolumeFactor(flags: seq<Flag>): real
  {
    if flags == [] then 1.0
    else if flags[|flags| - 1].Volume? then VolumeFactor(flags[..|flags| - 1]) * flags[|flags| - 1].factor
    else VolumeFactor(flags[..|flags| - 1])
  }

  /** The option switch of `main`, the check for left-over operands and
      `tone2 += tone1`. */
  method ParseOptions(flags: seq<Flag>, operands: nat) returns (p: Parsed)
    ensures p.Usage? <==> Rejected in flags || operands > 0
    ensures p.Run? ==> p.settings.channels == (if Mono in flags then 1 else 2)
    ensures p.Run? ==> p.settings.tone1 == LastBaseTone(flags)
    ensures p.Run? ==> p.settings.tone2 == LastBaseTone(flags) + LastGap(flags)
    ensures p.Run? ==> p.settings.volume == DEFAULT_VOLUME * VolumeFactor(flags)
  {
    var volume := DEFAULT_VOLUME;
    var channels := 2;
    var tone1, tone2 := DEFAULT_TONE, DEFAULT_GAP;
    var k := 0;
    while k < |flags|
      invariant 0 <= k <= |flags|
      invariant Rejected !in flags[..k]
      invariant channels == if Mono in flags[..k] then 1 else 2
      invariant tone1 == LastBaseTone(flags[..k])
      invariant tone2 == LastGap(flags[..k])
      invariant volume == DEFAULT_VOLUME * VolumeFactor(flags[..k])
    {
      assert flags[..k + 1][..k] == flags[..k];
      assert flags[..k + 1] == flags[..k] + [flags[k]];
      match flags[k] {
        case Volume(f) => volume := volume * f;
        case BaseTone(t) => tone1 := t;
        case Gap(g) => tone2 := g;
        case Mono => channels := 1;
        case Rejected => return Usage;
      }
      k := k + 1;
    }
    assert flags[..k] == flags;
    if operands > 0 {
      return Usage;
    }
    tone2 := tone2 + tone1;
    p := Run(Settings(volume, tone1, tone2, channels));
  }
}

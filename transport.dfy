/** Transport state shared by every plugin format (src/lib.rs). */
module Transport {
  import opened Common

  datatype PlayingState = Stopped | Playing | Recording | OfflineRendering

  /** `#[default]` on the enum. */
  const DefaultPlayingState: PlayingState := Stopped

  /** `PlayingState::is_playing`. */
  predicate IsPlaying(s: PlayingState)
    ensures IsPlaying(s) <==> s != Stopped
  {
    match s
    case Stopped => false
    case Playing => true
    case Recording => true
    case OfflineRendering => true
  }

  /** Times are beats (`PpqTime`) or seconds; they are never computed with
      here, so they are reals. `cycle` is the loop range, if one is active. */
  datatype ProcessDetails = ProcessDetails(
    sampleRate: nat,
    blockSize: nat,
    tempo: real,
    playerTime: real,
    timeSignatureNumerator: nat,
    timeSignatureDenominator: nat,
    cycle: Option<(real, real)>,
    playingState: PlayingState,
    barStartPos: real,
    nanos: real)

  /** `ProcessDetails::default()`: a stopped 4/4 transport at 120 BPM,
      44.1 kHz and 512-sample blocks, at position 0 with no cycle. */
  function DefaultProcessDetails(): (d: ProcessDetails)
    ensures d.sampleRate == 44100 && d.blockSize == 512 && d.tempo == 120.0
    ensures d.playerTime == 0.0 && d.barStartPos == 0.0 && d.nanos == 0.0
    ensures d.timeSignatureNumerator == 4 && d.timeSignatureDenominator == 4
    ensures d.cycle.None? && d.playingState == DefaultPlayingState
    ensures !IsPlaying(d.playingState)
  {
    ProcessDetails(44100, 512, 120.0, 0.0, 4, 4, None, Stopped, 0.0, 0.0)
  }
}

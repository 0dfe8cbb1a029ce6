/** The shared controller state of the device firmware (main.py): the globals
    that the two button callbacks and the main-loop handlers read and write,
    the effects the handlers have on the hardware, and the inputs a control
    tick samples. */
module DeviceModel {

  /** The values the firmware stores in `state`. `Firing` and `Error` are only
      ever written transiently inside a handler; `SoundOn`/`SoundOff` are the
      pseudo-states a sound toggle passes through. */
  datatype State = Startup | Disarmed | Armed | Firing | LowPower | SoundOn | SoundOff | Error

  /** The values the firmware stores in `substate`: an animation pattern while
      in `LowPower`, or, during a sound toggle, the state that was active when
      the two-button combo was pressed (`substate = state`). */
  datatype Substate = None | Chase | Rainbow | Twinkle | Wave | Saved(prior: State)

  /** Index into one of the three-clip rotations. */
  type SongIndex = i: nat | i < 3

  const FiringSongs: seq<string> := ["pew-small.wav", "tesla.wav", "blaster.wav"]
  const LowPowerSongs: seq<string> := ["nomana.wav", "nomana2.wav", "nomana3.wav"]

  /** The clips the controller plays; `FiringWav(i)` and `LowPowerWav(i)` are
      entry `i` of the two rotations. */
  datatype Clip = StartupWav | ArmWav | DisarmWav | BoomWav | SoundOnWav | NoSoundWav
                | FiringWav(index: SongIndex) | LowPowerWav(index: SongIndex)

  /** The file each clip names on the device: always a `.wav` file. */
  function FileName(c: Clip): (r: string)
    ensures |r| > 4 && r[|r| - 4..] == ".wav"
  {
    match c
    case StartupWav => "startup.wav"
    case ArmWav => "arm.wav"
    case DisarmWav => "disarm.wav"
    case BoomWav => "boom.wav"
    case SoundOnWav => "soundon.wav"
    case NoSoundWav => "nosound.wav"
    case FiringWav(i) => FiringSongs[i]
    case LowPowerWav(i) => LowPowerSongs[i]
  }

  /** Distinct clips name distinct files, so a played file identifies the
      clip, and in particular the rotation entry, that was meant. */
  lemma FileNameInjective(a: Clip, b: Clip)
    ensures FileName(a) == FileName(b) <==> a == b
  {
    if FileName(a) == FileName(b) {
      match a
      case FiringWav(i) =>
        assert FileName(a) == FiringSongs[i];
      case LowPowerWav(i) =>
        assert FileName(a) == LowPowerSongs[i];
      case _ =>
    }
  }

  /** Milliseconds an armed device may sit without a pulse before it drops to
      low power. */
  const TimeoutMs := 60000

  /** The controller globals. */
  datatype Device = Device(
    state: State,
    substate: Substate,
    stateChanged: bool,
    animationChanged: bool,
    soundOn: bool,
    firingSongIndex: SongIndex,
    lowPowerSongIndex: SongIndex,
    timeoutStart: int)

  /** Observable side effects of a handler, in the order it performs them.
      Clip playback is instantaneous and always completes. */
  datatype Effect = PwmOn | PwmOff | LedArm(on: bool) | LedHv(on: bool) | Play(clip: Clip) | Pulse

  /** The outcome of one handler or control tick. */
  datatype Step = Step(device: Device, effects: seq<Effect>)

  /** What one control tick samples: the arm switch, the charge sensor, how
      many consecutive samples the pulse button reads pressed (the firing loop
      runs that many times; any other handler only asks whether it is
      positive), and the millisecond clock. */
  datatype Inputs = Inputs(arm: bool, charged: bool, held: nat, now: int)

  predicate Pressed(i: Inputs)
  {
    i.held > 0
  }

  predicate IsSoundToggle(s: State)
  {
    s == SoundOn || s == SoundOff
  }

  /** The globals as the firmware initialises them; `t0` is the clock reading
      taken for `timeout_start` at start-up. */
  function Boot(t0: int): Device
  {
    Device(Startup, None, true, true, true, 0, 0, t0)
  }

  /** Advance a three-clip rotation (`index += 1; index %= len(songs)`);
      both rotations have three clips. */
  function NextSong(i: SongIndex): (j: SongIndex)
    ensures j == 0 <==> i == 2
    ensures i < 2 ==> j == i + 1
  {
    (i + 1) % 3
  }

  /** The rotation visits every clip and returns after three steps. */
  lemma RotationPeriodThree(i: SongIndex)
    ensures NextSong(i) != i && NextSong(NextSong(i)) != i
    ensures NextSong(NextSong(NextSong(i))) == i
  {
  }

  /** A one-clip trace when sound is enabled, nothing otherwise. */
  function ClipIf(soundOn: bool, clip: Clip): (t: seq<Effect>)
    ensures |t| <= 1
    ensures soundOn <==> Play(clip) in t
    ensures forall e | e in t :: e == Play(clip)
  {
    if soundOn then [Play(clip)] else []
  }

  /** Number of firing pulses in a trace. */
  function Pulses(t: seq<Effect>): nat
  {
    multiset(t)[Pulse]
  }

  /** The level of the high-voltage PWM after a trace, starting from `on`:
      the last PWM effect of the trace decides it. */
  function PwmAfter(on: bool, t: seq<Effect>): (r: bool)
    ensures |t| > 0 && t[|t| - 1] == PwmOn ==> r
    ensures |t| > 0 && t[|t| - 1] == PwmOff ==> !r
    decreases |t|
  {
    if |t| == 0 then on
    else PwmAfter(if t[0] == PwmOn then true else if t[0] == PwmOff then false else on, t[1..])
  }
}

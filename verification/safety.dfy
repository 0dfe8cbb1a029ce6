/** Properties of the controller across steps: the shape every reachable set
    of globals has, the sound-toggle round trip, the firing interlock, the
    auto low-power timeout, and what happens to the HV drive. */
module Safety {
  import opened DeviceModel
  import opened Buttons
  import opened Control

  /** The shape of the globals between two atomic steps. `Firing` and `Error`
      are only ever written transiently inside a handler; a sound pseudo-state
      always carries the state it interrupted, itself not a pseudo-state;
      outside low power and the sound toggle the substate is None; and the
      pseudo-state agrees with the sound setting. */
  predicate Consistent(d: Device)
  {
    && d.state != Firing && d.state != Error
    && (IsSoundToggle(d.state) <==> d.substate.Saved?)
    && (d.substate.Saved? ==> d.substate.prior !in {SoundOn, SoundOff, Firing, Error})
    && (d.state !in {LowPower, SoundOn, SoundOff} ==> d.substate == None)
    && (d.state == SoundOn ==> d.soundOn)
    && (d.state == SoundOff ==> !d.soundOn)
  }

  /** Everything that can happen to the globals: a low-power button edge, a
      wakeup button edge (each with the levels sampled after the debounce),
      or a control tick. */
  datatype Event =
    | LowPowerEdge(lowPowerLevel: bool, wakeupLevel: bool)
    | WakeupEdge(lowPowerLevel: bool, wakeupLevel: bool, armLevel: bool)
    | Tick(inputs: Inputs)

  /** One atomic step. */
  function Apply(d: Device, e: Event): (r: Step)
    requires Consistent(d)
    ensures Consistent(r.device)
    ensures !e.Tick? ==> r.effects == []
    ensures Pulses(r.effects) > 0 ==> e.Tick? && e.inputs.arm && e.inputs.charged
  {
    match e
    case LowPowerEdge(lp, wk) => Step(LowPowerCallback(d, lp, wk), [])
    case WakeupEdge(lp, wk, arm) => Step(WakeupCallback(d, lp, wk, arm), [])
    case Tick(i) => UpdateConsistent(d, i); Update(d, i)
  }

  /** A control tick keeps the globals consistent. */
  lemma UpdateConsistent(d: Device, i: Inputs)
    requires Consistent(d)
    ensures Consistent(Update(d, i).device)
  {
    UpdateCases(d, i);
    if d.state == Startup {
      var h := HandleStartup(d, i.arm).device;
      StartupConsistent(d, i.arm);
      DispatchConsistent(h, i);
      assert Update(d, i).device == Dispatch(h, i).device;
    } else {
      DispatchConsistent(d, i);
    }
  }

  lemma StartupConsistent(d: Device, arm: bool)
    requires Consistent(d) && d.state == Startup
    ensures Consistent(HandleStartup(d, arm).device) && HandleStartup(d, arm).device.state != Startup
  {
  }

  lemma DispatchConsistent(d: Device, i: Inputs)
    requires Consistent(d) && d.state != Startup
    ensures Consistent(Dispatch(d, i).device)
  {
    DispatchCases(d, i);
    match d.state
    case Disarmed => DisarmedConsistent(d, i.arm, Pressed(i));
    case Armed => ArmedConsistent(d, i);
    case LowPower => LowPowerConsistent(d, Pressed(i));
    case SoundOn => SoundOnConsistent(d);
    case SoundOff => SoundOffConsistent(d);
  }

  lemma DisarmedConsistent(d: Device, arm: bool, pressed: bool)
    requires Consistent(d) && d.state == Disarmed
    ensures Consistent(HandleDisarmed(d, arm, pressed).device)
  {
  }

  lemma ArmedConsistent(d: Device, i: Inputs)
    requires Consistent(d) && d.state == Armed
    ensures Consistent(HandleArmed(d, i.arm, i.charged, i.held, i.now).device)
  {
  }

  lemma LowPowerConsistent(d: Device, pressed: bool)
    requires Consistent(d) && d.state == LowPower
    ensures Consistent(HandleLowPower(d, pressed).device)
  {
  }

  lemma SoundOnConsistent(d: Device)
    requires Consistent(d) && d.state == SoundOn
    ensures Consistent(HandleSoundOn(d).device)
  {
  }

  lemma SoundOffConsistent(d: Device)
    requires Consistent(d) && d.state == SoundOff
    ensures Consistent(HandleSoundOff(d).device)
  {
  }

  /** Which handler a dispatch runs. */
  lemma DispatchCases(d: Device, i: Inputs)
    requires SavedDuringToggle(d)
    ensures d.state == Disarmed ==> Dispatch(d, i) == HandleDisarmed(d, i.arm, Pressed(i))
    ensures d.state == Armed ==> Dispatch(d, i) == HandleArmed(d, i.arm, i.charged, i.held, i.now)
    ensures d.state == LowPower ==> Dispatch(d, i) == HandleLowPower(d, Pressed(i))
    ensures d.state == SoundOn ==> Dispatch(d, i) == HandleSoundOn(d)
    ensures d.state == SoundOff ==> Dispatch(d, i) == HandleSoundOff(d)
  {
  }

  lemma DispatchDisarmed(d: Device, i: Inputs)
    requires d.state == Disarmed
    ensures Dispatch(d, i) == HandleDisarmed(d, i.arm, Pressed(i))
  {
  }

  lemma DispatchArmed(d: Device, i: Inputs)
    requires d.state == Armed
    ensures Dispatch(d, i) == HandleArmed(d, i.arm, i.charged, i.held, i.now)
  {
  }

  /** A tick is the dispatch, preceded on start-up by the start-up handler
      in the same tick. */
  lemma UpdateCases(d: Device, i: Inputs)
    requires SavedDuringToggle(d)
    ensures d.state != Startup ==> Update(d, i) == Dispatch(d, i)
    ensures d.state == Startup ==>
              var t := Dispatch(HandleStartup(d, i.arm).device, i);
              Update(d, i) == Step(t.device, [Play(StartupWav)] + t.effects)
  {
  }

  /** A sequence of atomic steps, with the concatenated effect trace. */
  function Run(d: Device, es: seq<Event>): (r: Step)
    requires Consistent(d)
    ensures Consistent(r.device)
    ensures (forall k | 0 <= k < |es| :: !es[k].Tick?) ==> r.effects == []
    decreases |es|
  {
    if |es| == 0 then Step(d, [])
    else
      var s := Apply(d, es[0]);
      var t := Run(s.device, es[1..]);
      assert forall k | 0 <= k < |es[1..]| :: es[1..][k] == es[k + 1];
      Step(t.device, s.effects + t.effects)
  }

  /** The globals as initialised are consistent, so every state reached from
      power-on is: in particular the device never rests in Firing or Error,
      and leaving low power always clears the substate. */
  lemma ReachableConsistent(t0: int, es: seq<Event>)
    ensures Consistent(Boot(t0))
    ensures var d := Run(Boot(t0), es).device;
            && d.state != Error && d.state != Firing
            && (d.state !in {LowPower, SoundOn, SoundOff} ==> d.substate == None)
  {
  }

  // ----- sound toggle -----

  /** The combo from either button, followed by the tick that plays the
      confirmation: sound is flipped and the state is back to what it was,
      with the substate cleared. Doing it twice restores the sound setting
      too. */
  lemma SoundToggleRoundTrip(d: Device, viaWakeup: bool, arm: bool, i: Inputs, j: Inputs)
    requires !IsSoundToggle(d.state)
    ensures var c := if viaWakeup then WakeupCallback(d, true, true, arm) else LowPowerCallback(d, true, true);
            && c.soundOn == !d.soundOn
            && c.substate == Saved(d.state)
            && (c.state == SoundOn <==> c.soundOn)
    ensures var a := Update(LowPowerCallback(d, true, true), i).device;
            && a.soundOn == !d.soundOn && a.state == d.state && a.substate == None
            && Update(LowPowerCallback(a, true, true), j).device.soundOn == d.soundOn
            && Update(LowPowerCallback(a, true, true), j).device.state == d.state
  {
  }

  /** While the confirmation is pending, both buttons are ignored. */
  lemma ButtonsIgnoredDuringToggle(d: Device, lp: bool, wk: bool, arm: bool)
    requires IsSoundToggle(d.state)
    ensures LowPowerCallback(d, lp, wk) == d && WakeupCallback(d, lp, wk, arm) == d
  {
  }

  /** The two confirmation handlers leave the flags differently: sound on
      consumes `stateChanged`, so the restored state's entry actions do not
      run again; sound off raises it, so they do. */
  lemma ToggleFlags(d: Device, i: Inputs)
    requires d.substate.Saved?
    ensures d.state == SoundOn ==> !Update(d, i).device.stateChanged && Update(d, i).device.animationChanged
    ensures d.state == SoundOff ==>
              Update(d, i).device.stateChanged && Update(d, i).device.animationChanged == d.animationChanged
  {
  }

  // ----- start-up and arming -----

  /** Start-up with the arm switch off ends the same tick Disarmed, powered
      down, with the start-up clip first. */
  lemma StartupDisarmed(d: Device, i: Inputs)
    requires d.state == Startup && d.substate == None && !i.arm
    ensures var s := Update(d, i);
            && s.device.state == Disarmed && !s.device.stateChanged
            && |s.effects| >= 4 && s.effects[..4] == [Play(StartupWav)] + PowerDown
  {
    var h := HandleStartup(d, i.arm);
    var t := HandleDisarmed(h.device, i.arm, Pressed(i));
    UpdateCases(d, i);
    DispatchCases(h.device, i);
    StartupPowerDownPrefix(t.effects);
  }

  lemma StartupPowerDownPrefix(t: seq<Effect>)
    requires |t| >= 3 && t[..3] == PowerDown
    ensures |[Play(StartupWav)] + t| >= 4
    ensures ([Play(StartupWav)] + t)[..4] == [Play(StartupWav)] + PowerDown
  {
    assert t[0] == LedArm(false) && t[1] == PwmOff && t[2] == LedHv(false);
  }

  /** A start-up tick with the arm switch on is the start-up handler followed
      by the Armed handler on the state it chose. */
  lemma StartupThenArmed(d: Device, i: Inputs)
    requires d.state == Startup && i.arm
    ensures var a := HandleArmed(HandleStartup(d, i.arm).device, i.arm, i.charged, i.held, i.now);
            Update(d, i) == Step(a.device, [Play(StartupWav)] + a.effects)
  {
    var h := HandleStartup(d, i.arm).device;
    assert h.state == Armed;
    UpdateCases(d, i);
    DispatchCases(h, i);
  }

  /** Start-up with the arm switch on runs the Armed entry in the same tick:
      the HV drive comes on and the timeout starts at this tick's clock. */
  lemma StartupArmed(d: Device, i: Inputs)
    requires d.state == Startup && i.arm
    ensures var s := Update(d, i);
            && s.device.state == Armed
            && |s.effects| >= 3 && s.effects[..3] == [Play(StartupWav), LedArm(true), PwmOn]
            && s.device.timeoutStart == i.now
  {
    var h := HandleStartup(d, i.arm);
    var a := HandleArmed(h.device, i.arm, i.charged, i.held, i.now);
    StartupThenArmed(d, i);
    ArmedEntryFirst(h.device, i);
    StartupPowerUpPrefix(a.effects);
  }

  lemma StartupPowerUpPrefix(t: seq<Effect>)
    requires |t| >= 2 && t[..2] == [LedArm(true), PwmOn]
    ensures |[Play(StartupWav)] + t| >= 3
    ensures ([Play(StartupWav)] + t)[..3] == [Play(StartupWav), LedArm(true), PwmOn]
  {
    assert t[0] == LedArm(true) && t[1] == PwmOn;
  }

  /** Entering Armed, with the switch still on, the trace starts with the
      power-up: arm LED, then the HV drive. */
  lemma ArmedEntryFirst(d: Device, i: Inputs)
    requires d.state == Armed && d.stateChanged && i.arm
    ensures var t := HandleArmed(d, i.arm, i.charged, i.held, i.now).effects;
            |t| >= 2 && t[..2] == [LedArm(true), PwmOn]
  {
    ArmedTracePower(d.stateChanged, d.soundOn, i.arm, i.charged, FiringWav(d.firingSongIndex), i.held);
  }

  /** Disarmed with the arm switch on: the next tick arms, and the tick after
      runs the Armed entry (arm LED on, HV drive on). */
  lemma ArmFromDisarmed(d: Device, i: Inputs, j: Inputs)
    requires d.state == Disarmed && i.arm && j.arm
    ensures var a := Update(d, i).device;
            && a.state == Armed && a.stateChanged
            && |Update(a, j).effects| >= 2 && Update(a, j).effects[..2] == [LedArm(true), PwmOn]
  {
    DisarmedArms(d, i);
    ArmedEntryTick(Update(d, i).device, j);
  }

  lemma DisarmedArms(d: Device, i: Inputs)
    requires d.state == Disarmed && i.arm
    ensures Update(d, i).device == d.(state := Armed, stateChanged := true, animationChanged := true)
  {
    UpdateCases(d, i);
    DispatchDisarmed(d, i);
  }

  lemma ArmedEntryTick(a: Device, j: Inputs)
    requires a.state == Armed && a.stateChanged && j.arm
    ensures |Update(a, j).effects| >= 2 && Update(a, j).effects[..2] == [LedArm(true), PwmOn]
  {
    UpdateCases(a, j);
    DispatchArmed(a, j);
    ArmedEntryFirst(a, j);
  }

  // ----- sound setting -----

  /** With sound off the handler a tick dispatches to plays no clip, except
      the confirmation of a pending sound toggle. */
  lemma DispatchSilent(d: Device, i: Inputs)
    requires SavedDuringToggle(d) && !d.soundOn
    ensures forall e | e in Dispatch(d, i).effects :: e.Play? ==> e.clip == SoundOnWav || e.clip == NoSoundWav
  {
    DispatchCases(d, i);
    if d.state == Disarmed {
      DisarmedSilent(d, i.arm, Pressed(i));
    } else if d.state == Armed {
      ArmedSilent(d, i);
    } else if d.state == LowPower {
      LowPowerSilent(d, Pressed(i));
    }
  }

  lemma DisarmedSilent(d: Device, arm: bool, pressed: bool)
    requires d.state == Disarmed && !d.soundOn
    ensures forall e | e in HandleDisarmed(d, arm, pressed).effects :: !e.Play?
  {
    var t := HandleDisarmed(d, arm, pressed).effects;
    if d.stateChanged {
      assert t == [LedArm(false), PwmOff, LedHv(false)];
    }
  }

  lemma ArmedSilent(d: Device, i: Inputs)
    requires d.state == Armed && !d.soundOn
    ensures forall e | e in HandleArmed(d, i.arm, i.charged, i.held, i.now).effects :: !e.Play?
  {
  }

  lemma LowPowerSilent(d: Device, pressed: bool)
    requires d.state == LowPower && !d.soundOn
    ensures forall e | e in HandleLowPower(d, pressed).effects :: !e.Play?
  {
    var t := HandleLowPower(d, pressed).effects;
    if d.stateChanged {
      assert t == [LedArm(false), PwmOff, LedHv(false)];
    }
  }

  /** Turning sound off silences every clip of a tick except the start-up
      clip, which plays whatever the setting, and the confirmation clips of
      the sound toggle. */
  lemma SoundOffSilences(d: Device, i: Inputs)
    requires SavedDuringToggle(d) && !d.soundOn
    ensures forall e | e in Update(d, i).effects ::
              e.Play? ==> e.clip == StartupWav || e.clip == SoundOnWav || e.clip == NoSoundWav
  {
    if d.state == Startup {
      StartupSilent(d, i);
    } else {
      UpdateCases(d, i);
      DispatchSilent(d, i);
    }
  }

  lemma StartupSilent(d: Device, i: Inputs)
    requires d.state == Startup && !d.soundOn
    ensures forall e | e in Update(d, i).effects ::
              e.Play? ==> e.clip == StartupWav || e.clip == SoundOnWav || e.clip == NoSoundWav
  {
    var h := HandleStartup(d, i.arm).device;
    assert h == d.(state := if i.arm then Armed else Disarmed, stateChanged := true, animationChanged := true);
    UpdateCases(d, i);
    DispatchSilent(h, i);
    StartupClipFirst(Dispatch(h, i).effects);
  }

  lemma StartupClipFirst(t: seq<Effect>)
    requires forall e | e in t :: e.Play? ==> e.clip == SoundOnWav || e.clip == NoSoundWav
    ensures forall e | e in [Play(StartupWav)] + t ::
              e.Play? ==> e.clip == StartupWav || e.clip == SoundOnWav || e.clip == NoSoundWav
  {
  }

  // ----- firing -----

  /** A tick emits pulses only from Armed (or from Startup, which becomes
      Armed in the same tick) with the switch on and the capacitor charged;
      from Armed it emits exactly `held` of them and advances the firing
      rotation by one exactly when it fired. */
  lemma FiringInterlock(d: Device, i: Inputs)
    requires SavedDuringToggle(d)
    ensures Pulses(Update(d, i).effects) > 0 ==> i.arm && i.charged && d.state in {Startup, Armed}
    ensures !i.charged || !i.arm ==> Pulses(Update(d, i).effects) == 0
    ensures d.state == Armed ==>
              && Pulses(Update(d, i).effects) == (if i.arm && i.charged then i.held else 0)
              && Update(d, i).device.firingSongIndex ==
                   (if i.arm && i.charged && i.held > 0 then NextSong(d.firingSongIndex) else d.firingSongIndex)
  {
  }

  /** Not charged: the handler returns before the firing loop and the timeout
      check, so it stays Armed, emits no pulse and keeps a pending
      `stateChanged`, which makes the entry actions (HV on, timeout restart)
      run again on every such tick. */
  lemma UnchargedRepeatsEntry(d: Device, i: Inputs)
    requires d.state == Armed && i.arm && !i.charged
    ensures var s := Update(d, i);
            && s.device.state == Armed && Pulses(s.effects) == 0
            && s.device.stateChanged == d.stateChanged
            && (d.stateChanged ==> PwmOn in s.effects && s.device.timeoutStart == i.now)
            && LedHv(false) in s.effects
  {
  }

  /** Any number of uncharged ticks with the switch on: still Armed, no pulse,
      however long ago the timeout started. */
  lemma {:induction false} UnchargedNeverTimesOut(d: Device, ticks: seq<Inputs>)
    requires Consistent(d) && d.state == Armed
    requires forall k | 0 <= k < |ticks| :: ticks[k].arm && !ticks[k].charged
    ensures Run(d, TickEvents(ticks)).device.state == Armed
    ensures Pulses(Run(d, TickEvents(ticks)).effects) == 0
    decreases |ticks|
  {
    if |ticks| > 0 {
      var es := TickEvents(ticks);
      var s := Apply(d, es[0]);
      assert es[1..] == TickEvents(ticks[1..]);
      UnchargedNeverTimesOut(s.device, ticks[1..]);
      var t := Run(s.device, es[1..]);
      assert Run(d, es).effects == s.effects + t.effects;
    }
  }

  /** The events of a run made only of control ticks. */
  function TickEvents(ticks: seq<Inputs>): (es: seq<Event>)
    ensures |es| == |ticks|
    ensures forall k | 0 <= k < |ticks| :: es[k] == Tick(ticks[k])
  {
    seq(|ticks|, k requires 0 <= k < |ticks| => Tick(ticks[k]))
  }

  // ----- timeout -----

  /** Armed, charged, idle, and more than 60 s since the timeout started: the
      next tick drops to low power with `stateChanged` raised, the tick after
      runs the low-power entry (HV drive off) once and consumes the flag, and
      later ticks stay in low power without repeating it. */
  lemma TimeoutOnce(d: Device, i: Inputs, j: Inputs, k: Inputs)
    requires d.state == Armed && !d.stateChanged
    requires i.arm && i.charged && i.held == 0 && i.now - d.timeoutStart > TimeoutMs
    ensures var a := Update(d, i);
            && a.device.state == LowPower && a.device.stateChanged && Pulses(a.effects) == 0
    ensures var b := Update(Update(d, i).device, j);
            && b.device.state == LowPower && !b.device.stateChanged && PwmOff in b.effects
            && Update(b.device, k).device.state == LowPower
            && PwmOff !in Update(b.device, k).effects
  {
  }

  /** A pulse in the same tick prevents the timeout, however old it was. */
  lemma PulsePreventsTimeout(d: Device, i: Inputs)
    requires d.state == Armed && i.arm && i.charged && i.held > 0
    ensures Update(d, i).device.state == Armed && Update(d, i).device.timeoutStart == i.now
  {
  }

  // ----- low power -----

  /** In low power the pulse button plays the next clip of the low-power
      rotation only when sound is on; the rotation restarts from its first clip
      on entry. */
  lemma LowPowerSongs(d: Device, i: Inputs)
    requires d.state == LowPower
    ensures var s := Update(d, i);
            var base := if d.stateChanged then 0 else d.lowPowerSongIndex;
            && s.device.state == LowPower && !s.device.stateChanged
            && s.device.lowPowerSongIndex == (if Pressed(i) && d.soundOn then NextSong(base) else base)
            && (d.stateChanged ==> PwmOff in s.effects)
  {
  }

  // ----- HV drive -----

  /** The state whose rules the device is following: during a sound toggle,
      the state it interrupted. */
  function Effective(d: Device): State
  {
    if d.substate.Saved? then d.substate.prior else d.state
  }

  /** The HV drive may be on only while Armed, or while the exit from Armed
      is still pending (`stateChanged` set, so the next handler powers down). */
  predicate HvSafe(d: Device, pwm: bool)
  {
    pwm ==> Effective(d) == Armed || d.stateChanged
  }

  lemma {:induction false} PwmAfterConcat(on: bool, a: seq<Effect>, b: seq<Effect>)
    ensures PwmAfter(on, a + b) == PwmAfter(PwmAfter(on, a), b)
    decreases |a|
  {
    if |a| == 0 {
      assert a + b == b;
    } else {
      assert (a + b)[0] == a[0] && (a + b)[1..] == a[1..] + b;
      PwmAfterConcat(if a[0] == PwmOn then true else if a[0] == PwmOff then false else on, a[1..], b);
    }
  }

  lemma {:induction false} PwmAfterUntouched(on: bool, t: seq<Effect>)
    requires PwmOn !in t && PwmOff !in t
    ensures PwmAfter(on, t) == on
    decreases |t|
  {
    if |t| > 0 {
      assert t[0] != PwmOn && t[0] != PwmOff;
      PwmAfterUntouched(on, t[1..]);
    }
  }

  /** A trace that starts with the power-down entry and never turns the drive
      back on leaves it off. */
  lemma PwmAfterPowerDown(on: bool, t: seq<Effect>)
    requires |t| >= 3 && t[..3] == PowerDown && PwmOn !in t
    ensures !PwmAfter(on, t)
  {
    assert t == t[..3] + t[3..];
    PwmAfterConcat(on, t[..3], t[3..]);
    assert PwmAfter(on, t[..3]) == false;
    PwmStaysOff(t[3..]);
  }

  lemma {:induction false} PwmStaysOff(t: seq<Effect>)
    requires PwmOn !in t
    ensures !PwmAfter(false, t)
    decreases |t|
  {
    if |t| > 0 {
      assert t[0] != PwmOn;
      PwmStaysOff(t[1..]);
    }
  }

  /** Every step keeps the HV drive safe, except the sound-on confirmation
      when it interrupts a pending exit from Armed to a saved state other than
      Armed: it clears `stateChanged`, so the power-down entry of the restored
      state never runs. */
  lemma HvSafePreserved(d: Device, pwm: bool, e: Event)
    requires Consistent(d) && HvSafe(d, pwm)
    requires !(e.Tick? && d.state == SoundOn && d.stateChanged && d.substate != Saved(Armed))
    ensures HvSafe(Apply(d, e).device, PwmAfter(pwm, Apply(d, e).effects))
  {
    match e
    case LowPowerEdge(lp, wk) =>
      assert Apply(d, e) == Step(LowPowerCallback(d, lp, wk), []);
    case WakeupEdge(lp, wk, arm) =>
      assert Apply(d, e) == Step(WakeupCallback(d, lp, wk, arm), []);
    case Tick(i) =>
      assert Apply(d, e) == Update(d, i);
      HvSafeTick(d, pwm, i);
  }

  /** A control tick keeps the HV drive safe, with the same exception. */
  lemma HvSafeTick(d: Device, pwm: bool, i: Inputs)
    requires Consistent(d) && HvSafe(d, pwm)
    requires !(d.state == SoundOn && d.stateChanged && d.substate != Saved(Armed))
    ensures HvSafe(Update(d, i).device, PwmAfter(pwm, Update(d, i).effects))
  {
    UpdateCases(d, i);
    if d.state == Startup {
      HvSafeStartup(d, pwm, i);
    } else {
      DispatchCases(d, i);
      match d.state
      case Disarmed => HvSafeDisarmed(d, pwm, i.arm, Pressed(i));
      case Armed => HvSafeArmed(d, pwm, i);
      case LowPower => HvSafeLowPower(d, pwm, Pressed(i));
      case SoundOn => HvSafeSoundOn(d, pwm);
      case SoundOff =>
    }
  }

  lemma HvSafeStartup(d: Device, pwm: bool, i: Inputs)
    requires Consistent(d) && d.state == Startup
    ensures HvSafe(Update(d, i).device, PwmAfter(pwm, Update(d, i).effects))
  {
    UpdateCases(d, i);
    var h := HandleStartup(d, i.arm).device;
    var p := PwmAfter(pwm, [Play(StartupWav)]);
    StartupConsistent(d, i.arm);
    DispatchCases(h, i);
    var t := Dispatch(h, i);
    if i.arm {
      HvSafeArmed(h, p, i);
    } else {
      HvSafeDisarmed(h, p, false, Pressed(i));
    }
    PwmAfterConcat(pwm, [Play(StartupWav)], t.effects);
  }

  lemma HvSafeDisarmed(d: Device, pwm: bool, arm: bool, pressed: bool)
    requires Consistent(d) && HvSafe(d, pwm) && d.state == Disarmed
    ensures var r := HandleDisarmed(d, arm, pressed);
            HvSafe(r.device, PwmAfter(pwm, r.effects))
  {
    var r := HandleDisarmed(d, arm, pressed);
    if d.stateChanged {
      PwmAfterPowerDown(pwm, r.effects);
    } else {
      PwmAfterUntouched(pwm, r.effects);
    }
  }

  lemma HvSafeArmed(d: Device, pwm: bool, i: Inputs)
    requires Consistent(d) && d.state == Armed
    ensures var r := HandleArmed(d, i.arm, i.charged, i.held, i.now);
            HvSafe(r.device, PwmAfter(pwm, r.effects))
  {
  }

  /** The sound-on confirmation keeps the PWM safe unless it interrupts a
      pending exit to a state other than Armed. */
  lemma HvSafeSoundOn(d: Device, pwm: bool)
    requires Consistent(d) && HvSafe(d, pwm) && d.state == SoundOn
    requires d.stateChanged ==> d.substate == Saved(Armed)
    ensures var r := HandleSoundOn(d);
            HvSafe(r.device, PwmAfter(pwm, r.effects))
  {
    PwmAfterUntouched(pwm, HandleSoundOn(d).effects);
  }

  lemma HvSafeLowPower(d: Device, pwm: bool, pressed: bool)
    requires Consistent(d) && HvSafe(d, pwm) && d.state == LowPower
    ensures var r := HandleLowPower(d, pressed);
            HvSafe(r.device, PwmAfter(pwm, r.effects))
  {
    var r := HandleLowPower(d, pressed);
    if d.stateChanged {
      PwmAfterPowerDown(pwm, r.effects);
    } else {
      PwmAfterUntouched(pwm, r.effects);
    }
  }

  /** The exception happens from power-on, whatever the clock reads. Arm
      with the capacitor charged, turn sound off with the combo (its
      confirmation re-raises `stateChanged`), flip the arm switch off, and
      press the combo again before the next tick: the sound-on confirmation
      restores Disarmed with `stateChanged` consumed, so the Disarmed entry
      never powers the HV drive down. */
  lemma HvLeftOnWhileDisarmed(t0: int)
    ensures var r := Run(Boot(t0), HvCounterRun(t0));
            && r.device.state == Disarmed && !r.device.stateChanged && !r.device.substate.Saved?
            && PwmAfter(false, r.effects)
            && !HvSafe(r.device, PwmAfter(false, r.effects))
  {
    WholeRun(t0);
    CounterTraceOn();
  }

  /** The events of that run, with the clock at `t0` throughout. */
  function HvCounterRun(t0: int): (es: seq<Event>)
    ensures |es| == 6 && es[0] == Tick(Inputs(true, true, 0, t0)) && es[5] == Tick(Inputs(false, false, 0, t0))
  {
    var armed := Inputs(true, true, 0, t0);
    var off := Inputs(false, false, 0, t0);
    [Tick(armed), LowPowerEdge(true, true), Tick(armed),
     WakeupEdge(false, true, false), LowPowerEdge(true, true), Tick(off)]
  }

  /** The trace of the first tick of that run. */
  const BootArmTrace: seq<Effect> := [Play(StartupWav), LedArm(true), PwmOn, Play(ArmWav), LedHv(true)]

  /** The run's trace leaves the drive on: the first tick turns it on and
      the two confirmation clips do not touch it. */
  lemma CounterTraceOn()
    ensures PwmAfter(false, BootArmTrace + ([Play(NoSoundWav)] + [Play(SoundOnWav)]))
  {
    var t2 := [Play(NoSoundWav)] + [Play(SoundOnWav)];
    PwmAfterConcat(false, BootArmTrace, t2);
    ArmTraceTurnsOn();
    PwmAfterUntouched(true, t2);
  }

  lemma ArmTraceTurnsOn()
    ensures PwmAfter(false, BootArmTrace)
  {
  }

  /** That run, event by event: the first two, then the last four. */
  lemma WholeRun(t0: int)
    ensures Run(Boot(t0), HvCounterRun(t0)) ==
              Step(Device(Disarmed, None, false, true, true, 0, 0, t0),
                   BootArmTrace + ([Play(NoSoundWav)] + [Play(SoundOnWav)]))
  {
    var armed := Inputs(true, true, 0, t0);
    var off := Inputs(false, false, 0, t0);
    var e3 := [Tick(armed)] + ([WakeupEdge(false, true, false)] + ([LowPowerEdge(true, true)] + [Tick(off)]));
    Nest6(Tick(armed), LowPowerEdge(true, true), Tick(armed),
          WakeupEdge(false, true, false), LowPowerEdge(true, true), Tick(off));
    LastFour(t0);
    FirstTwo(t0, e3);
  }

  /** The first two events of that run: arm at power-on, then the combo. */
  lemma FirstTwo(t0: int, rest: seq<Event>)
    ensures var d2 := Device(SoundOff, Saved(Armed), false, true, false, 0, 0, t0);
            Run(Boot(t0), [Tick(Inputs(true, true, 0, t0))] + ([LowPowerEdge(true, true)] + rest)) ==
              Step(Run(d2, rest).device,
                   BootArmTrace + Run(d2, rest).effects)
  {
    RunArmAtBoot(t0, [LowPowerEdge(true, true)] + rest);
    RunComboFromArmed(t0, rest);
  }

  lemma RunArmAtBoot(t0: int, rest: seq<Event>)
    ensures var d1 := Device(Armed, None, false, true, true, 0, 0, t0);
            Run(Boot(t0), [Tick(Inputs(true, true, 0, t0))] + rest) ==
              Step(Run(d1, rest).device,
                   BootArmTrace + Run(d1, rest).effects)
  {
    ArmAtBoot(t0);
    RunTick(Boot(t0), Inputs(true, true, 0, t0), rest, Device(Armed, None, false, true, true, 0, 0, t0),
            BootArmTrace);
  }

  lemma RunComboFromArmed(t0: int, rest: seq<Event>)
    ensures Run(Device(Armed, None, false, true, true, 0, 0, t0), [LowPowerEdge(true, true)] + rest) ==
              Run(Device(SoundOff, Saved(Armed), false, true, false, 0, 0, t0), rest)
  {
    ComboFromArmed(t0);
    RunSilent(Device(Armed, None, false, true, true, 0, 0, t0), LowPowerEdge(true, true), rest,
              Device(SoundOff, Saved(Armed), false, true, false, 0, 0, t0));
  }

  /** The last four events of that run, from the sound-off pseudo-state. */
  lemma LastFour(t0: int)
    ensures var armed := Inputs(true, true, 0, t0);
            var off := Inputs(false, false, 0, t0);
            Run(Device(SoundOff, Saved(Armed), false, true, false, 0, 0, t0),
                [Tick(armed)] + ([WakeupEdge(false, true, false)] + ([LowPowerEdge(true, true)] + [Tick(off)]))) ==
              Step(Device(Disarmed, None, false, true, true, 0, 0, t0), [Play(NoSoundWav)] + [Play(SoundOnWav)])
  {
    var armed := Inputs(true, true, 0, t0);
    var off := Inputs(false, false, 0, t0);
    var d3 := Device(Armed, None, true, true, false, 0, 0, t0);
    var d4 := Device(Disarmed, None, true, true, false, 0, 0, t0);
    var d5 := Device(SoundOn, Saved(Disarmed), true, true, true, 0, 0, t0);
    LastTwo(t0);
    DisarmSwitch(t0);
    RunSilent(d3, WakeupEdge(false, true, false), [LowPowerEdge(true, true)] + [Tick(off)], d4);
    SoundOffConfirm(t0);
    RunLoud(Device(SoundOff, Saved(Armed), false, true, false, 0, 0, t0), Tick(armed),
            [WakeupEdge(false, true, false)] + ([LowPowerEdge(true, true)] + [Tick(off)]), d3, [Play(NoSoundWav)]);
  }

  /** The combo while the exit to Disarmed is pending, then its confirmation. */
  lemma LastTwo(t0: int)
    ensures Run(Device(Disarmed, None, true, true, false, 0, 0, t0),
                [LowPowerEdge(true, true)] + [Tick(Inputs(false, false, 0, t0))]) ==
              Step(Device(Disarmed, None, false, true, true, 0, 0, t0), [Play(SoundOnWav)])
  {
    var d4 := Device(Disarmed, None, true, true, false, 0, 0, t0);
    var d5 := Device(SoundOn, Saved(Disarmed), true, true, true, 0, 0, t0);
    ComboWhileDisarming(t0);
    SoundOnConfirm(t0);
    RunSilent(d4, LowPowerEdge(true, true), [Tick(Inputs(false, false, 0, t0))], d5);
    RunOne(d5, Tick(Inputs(false, false, 0, t0)));
  }

  /** First tick of that run: start-up, then the Armed entry, charged and idle. */
  lemma ArmAtBoot(t0: int)
    ensures Update(Boot(t0), Inputs(true, true, 0, t0)) ==
              Step(Device(Armed, None, false, true, true, 0, 0, t0),
                   BootArmTrace)
  {
    var i := Inputs(true, true, 0, t0);
    var h := Device(Armed, None, true, true, true, 0, 0, t0);
    UpdateCases(Boot(t0), i);
    assert HandleStartup(Boot(t0), true).device == h;
    DispatchArmed(h, i);
    ArmedIdleEntry(h, t0);
    assert PowerUp(true) == [LedArm(true), PwmOn, Play(ArmWav)];
    Append31(LedArm(true), PwmOn, Play(ArmWav), LedHv(true));
    Prepend14(Play(StartupWav), LedArm(true), PwmOn, Play(ArmWav), LedHv(true));
  }

  lemma ComboFromArmed(t0: int)
    ensures Apply(Device(Armed, None, false, true, true, 0, 0, t0), LowPowerEdge(true, true)) ==
              Step(Device(SoundOff, Saved(Armed), false, true, false, 0, 0, t0), [])
  {
  }

  lemma SoundOffConfirm(t0: int)
    ensures Apply(Device(SoundOff, Saved(Armed), false, true, false, 0, 0, t0), Tick(Inputs(true, true, 0, t0))) ==
              Step(Device(Armed, None, true, true, false, 0, 0, t0), [Play(NoSoundWav)])
  {
    var d := Device(SoundOff, Saved(Armed), false, true, false, 0, 0, t0);
    UpdateCases(d, Inputs(true, true, 0, t0));
    DispatchCases(d, Inputs(true, true, 0, t0));
  }

  lemma DisarmSwitch(t0: int)
    ensures Apply(Device(Armed, None, true, true, false, 0, 0, t0), WakeupEdge(false, true, false)) ==
              Step(Device(Disarmed, None, true, true, false, 0, 0, t0), [])
  {
  }

  lemma ComboWhileDisarming(t0: int)
    ensures Apply(Device(Disarmed, None, true, true, false, 0, 0, t0), LowPowerEdge(true, true)) ==
              Step(Device(SoundOn, Saved(Disarmed), true, true, true, 0, 0, t0), [])
  {
  }

  lemma SoundOnConfirm(t0: int)
    ensures Apply(Device(SoundOn, Saved(Disarmed), true, true, true, 0, 0, t0), Tick(Inputs(false, false, 0, t0))) ==
              Step(Device(Disarmed, None, false, true, true, 0, 0, t0), [Play(SoundOnWav)])
  {
    var d := Device(SoundOn, Saved(Disarmed), true, true, true, 0, 0, t0);
    UpdateCases(d, Inputs(false, false, 0, t0));
    DispatchCases(d, Inputs(false, false, 0, t0));
  }

  /** Entering Armed with the switch on, charged and no pulse, before the
      timeout: the power-up, the HV LED, and the flag consumed. */
  lemma ArmedIdleEntry(d: Device, now: int)
    requires d.state == Armed && d.stateChanged
    ensures HandleArmed(d, true, true, 0, now) ==
              Step(d.(stateChanged := false, timeoutStart := now), PowerUp(d.soundOn) + [LedHv(true)])
  {
    FireIdle(d.(timeoutStart := now), now);
  }

  /** The charged part of the Armed handler with no pulse, before the
      timeout: only the HV LED, and the flag consumed. */
  lemma FireIdle(d: Device, now: int)
    requires now - d.timeoutStart <= TimeoutMs
    ensures FireHeld(d, 0, now) == Step(d.(state := Armed, stateChanged := false), [LedHv(true)])
  {
    assert Shots(d.soundOn, FiringWav(d.firingSongIndex), 0) == [];
    assert HoldEffects(d.soundOn, FiringWav(d.firingSongIndex), 0) == [LedHv(true)] + [];
  }

  // The three lemmas below flatten concrete sequence concatenations. Stating
  // them once, generically, keeps the concrete run proofs from unfolding the
  // concatenation element by element.

  lemma Append31<T>(a: T, b: T, c: T, d: T)
    ensures [a, b, c] + [d] == [a, b, c, d]
  {
  }

  lemma Prepend14<T>(a: T, b: T, c: T, d: T, e: T)
    ensures [a] + [b, c, d, e] == [a, b, c, d, e]
  {
  }

  lemma Nest6<T>(a: T, b: T, c: T, d: T, e: T, f: T)
    ensures [a] + ([b] + ([c] + ([d] + ([e] + [f])))) == [a, b, c, d, e, f]
  {
  }

  /** `Run` on a one-event sequence is that event's step. */
  lemma RunOne(d: Device, e: Event)
    requires Consistent(d)
    ensures Run(d, [e]) == Step(Apply(d, e).device, Apply(d, e).effects)
  {
    assert [e][1..] == [];
  }

  /** `Run` on a sequence with a first event: that event's step, then the rest. */
  lemma RunCons(d: Device, e: Event, es: seq<Event>)
    requires Consistent(d)
    ensures var s := Apply(d, e);
            var t := Run(s.device, es);
            Run(d, [e] + es) == Step(t.device, s.effects + t.effects)
  {
    assert ([e] + es)[0] == e;
    assert ([e] + es)[1..] == es;
  }

  /** A first event with effects `t`: they come first in the run's trace. */
  lemma RunLoud(d: Device, e: Event, es: seq<Event>, next: Device, t: seq<Effect>)
    requires Consistent(d) && Apply(d, e) == Step(next, t)
    ensures Run(d, [e] + es) == Step(Run(next, es).device, t + Run(next, es).effects)
  {
    RunCons(d, e, es);
  }

  /** A first tick with effects `t`: they come first in the run's trace. */
  lemma RunTick(d: Device, i: Inputs, es: seq<Event>, next: Device, t: seq<Effect>)
    requires Consistent(d) && Update(d, i) == Step(next, t)
    ensures Run(d, [Tick(i)] + es) == Step(Run(next, es).device, t + Run(next, es).effects)
  {
    RunCons(d, Tick(i), es);
  }

  /** A first event with no effects just moves the run to its successor. */
  lemma RunSilent(d: Device, e: Event, es: seq<Event>, next: Device)
    requires Consistent(d) && Apply(d, e) == Step(next, [])
    ensures Run(d, [e] + es) == Run(next, es)
  {
    RunCons(d, e, es);
    assert [] + Run(next, es).effects == Run(next, es).effects;
  }

  /** ... and it stays on: every further tick with the arm switch off leaves
      the device Disarmed and emits no power-down. */
  lemma {:induction false} DisarmedKeepsPwm(d: Device, ticks: seq<Inputs>)
    requires Consistent(d) && d.state == Disarmed && !d.stateChanged
    requires forall k | 0 <= k < |ticks| :: !ticks[k].arm
    ensures Run(d, TickEvents(ticks)).device.state == Disarmed
    ensures PwmOff !in Run(d, TickEvents(ticks)).effects && PwmOn !in Run(d, TickEvents(ticks)).effects
    decreases |ticks|
  {
    if |ticks| > 0 {
      var es := TickEvents(ticks);
      var s := Apply(d, es[0]);
      assert es[1..] == TickEvents(ticks[1..]);
      DisarmedKeepsPwm(s.device, ticks[1..]);
      var t := Run(s.device, es[1..]);
      assert Run(d, es).effects == s.effects + t.effects;
    }
  }
}

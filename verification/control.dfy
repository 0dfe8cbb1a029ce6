/** The main-loop dispatcher `update` and its per-state handlers
    (main.py:426-622). Each handler is a pure step from the globals and the
    inputs sampled in that tick to new globals plus the effect trace. */
module Control {
  import opened DeviceModel

  /** The effects of `k` passes of the firing hold loop: per pass, the shot's
      clip is started (when sound is on) and one pulse is emitted. The clip is
      the same on every pass, since the rotation advances only after the loop. */
  function Shots(soundOn: bool, clip: Clip, k: nat): (t: seq<Effect>)
    ensures Pulses(t) == k
    ensures forall e | e in t :: e == Pulse || e == Play(clip)
    ensures Play(clip) in t <==> soundOn && k > 0
    // one play of the clip per pass when sound is on
    ensures multiset(t)[Play(clip)] == (if soundOn then k else 0)
    ensures !soundOn ==> forall e | e in t :: e == Pulse
    decreases k
  {
    if k == 0 then []
    else ClipIf(soundOn, clip) + [Pulse] + Shots(soundOn, clip, k - 1)
  }

  /** `handle_startup`: play the start-up clip (whatever the sound setting),
      then go Armed if the arm switch is on, else Disarmed, with both flags
      raised. */
  function HandleStartup(d: Device, arm: bool): (r: Step)
    ensures r.device.state == (if arm then Armed else Disarmed)
    ensures r.device.stateChanged && r.device.animationChanged
    ensures r.effects == [Play(StartupWav)]
    ensures r.device.(state := d.state, stateChanged := d.stateChanged, animationChanged := d.animationChanged) == d
  {
    Step(d.(state := if arm then Armed else Disarmed, stateChanged := true, animationChanged := true),
         [Play(StartupWav)])
  }

  /** Entry actions of Disarmed and of low power: arm LED off, HV PWM off, HV
      LED off. */
  const PowerDown: seq<Effect> := [LedArm(false), PwmOff, LedHv(false)]

  /** Entry actions of Disarmed: power down, then the disarm clip. */
  function DisarmEntry(soundOn: bool): (t: seq<Effect>)
    ensures |t| == 3 + (if soundOn then 1 else 0) && t[..3] == PowerDown
    ensures forall e | e in t[3..] :: e == Play(DisarmWav)
    ensures Play(DisarmWav) in t <==> soundOn
    ensures Pulses(t) == 0 && PwmOn !in t && Play(BoomWav) !in t
  {
    if soundOn then PowerDown + [Play(DisarmWav)] else PowerDown
  }

  /** The trace of the Disarmed handler: the entry actions when the state
      just changed, then the boom clip when `boom` asks for it and sound is
      on. */
  function DisarmedEffects(changed: bool, soundOn: bool, boom: bool): seq<Effect>
  {
    (if changed then DisarmEntry(soundOn) else []) + (if boom then ClipIf(soundOn, BoomWav) else [])
  }

  lemma DisarmedEffectsPower(changed: bool, soundOn: bool, boom: bool)
    ensures var t := DisarmedEffects(changed, soundOn, boom);
            && Pulses(t) == 0 && PwmOn !in t
            && (changed ==> |t| >= 3 && t[..3] == PowerDown)
            && (!changed ==> PwmOff !in t)
  {
    if changed {
      assert DisarmEntry(soundOn) <= DisarmedEffects(changed, soundOn, boom);
    }
  }

  lemma DisarmedEffectsShape(changed: bool, soundOn: bool, boom: bool)
    ensures var t := DisarmedEffects(changed, soundOn, boom);
            && (changed ==> |t| >= 3 && forall e | e in t[3..] :: e == Play(DisarmWav) || e == Play(BoomWav))
            && (!changed ==> forall e | e in t :: e == Play(BoomWav))
  {
    if changed {
      DisarmedTail(soundOn, boom);
    } else {
      DisarmedIdle(soundOn, boom);
    }
  }

  /** After the power-down the Disarmed entry trace holds only its clips. */
  lemma DisarmedTail(soundOn: bool, boom: bool)
    ensures var t := DisarmedEffects(true, soundOn, boom);
            |t| >= 3 && forall e | e in t[3..] :: e == Play(DisarmWav) || e == Play(BoomWav)
  {
    var t := DisarmedEffects(true, soundOn, boom);
    if soundOn && boom {
      assert t == PowerDown + [Play(DisarmWav), Play(BoomWav)];
      assert t[3..] == [Play(DisarmWav), Play(BoomWav)];
    } else if soundOn {
      assert t == PowerDown + [Play(DisarmWav)];
      assert t[3..] == [Play(DisarmWav)];
    } else {
      assert t == PowerDown;
    }
  }

  /** Without an entry the Disarmed trace holds only the boom clip. */
  lemma DisarmedIdle(soundOn: bool, boom: bool)
    ensures forall e | e in DisarmedEffects(false, soundOn, boom) :: e == Play(BoomWav)
  {
    assert DisarmedEffects(false, soundOn, boom) == (if boom then ClipIf(soundOn, BoomWav) else []);
  }

  /** With sound off the Disarmed trace is the power-down on entry and
      nothing otherwise: no clip at all. */
  lemma DisarmedEffectsSilent(changed: bool, boom: bool)
    ensures DisarmedEffects(changed, false, boom) == (if changed then PowerDown else [])
  {
    assert DisarmEntry(false) == PowerDown + [];
  }

  /** The Disarmed trace has one effect per action, with the disarm clip
      right after the power-down and the boom clip last. */
  lemma DisarmedEffectsOrder(changed: bool, soundOn: bool, boom: bool)
    ensures var t := DisarmedEffects(changed, soundOn, boom);
            && |t| == (if changed then 3 + (if soundOn then 1 else 0) else 0) + (if boom && soundOn then 1 else 0)
            && (changed && soundOn ==> |t| >= 4 && t[3] == Play(DisarmWav))
            && (boom && soundOn ==> |t| >= 1 && t[|t| - 1] == Play(BoomWav))
  {
  }

  lemma DisarmedEffectsClips(changed: bool, soundOn: bool, boom: bool)
    ensures var t := DisarmedEffects(changed, soundOn, boom);
            && (Play(DisarmWav) in t <==> changed && soundOn)
            && (Play(BoomWav) in t <==> boom && soundOn)
  {
  }

  /** `handle_disarmed`: entry actions when the state just changed; arm if the
      switch is on; otherwise a pressed pulse button only plays the boom clip
      (the "Error" written during that playback is overwritten before the
      handler returns) and the state-changed flag is consumed. */
  function HandleDisarmed(d: Device, arm: bool, pressed: bool): (r: Step)
    requires d.state == Disarmed
    ensures arm ==> r.device == d.(state := Armed, stateChanged := true, animationChanged := true)
    ensures !arm ==> r.device == d.(stateChanged := false)
    ensures Pulses(r.effects) == 0 && PwmOn !in r.effects
    ensures d.stateChanged ==> |r.effects| >= 3 && r.effects[..3] == PowerDown
    ensures d.stateChanged ==> forall e | e in r.effects[3..] :: e == Play(DisarmWav) || e == Play(BoomWav)
    ensures !d.stateChanged ==> forall e | e in r.effects :: e == Play(BoomWav)
    ensures !d.stateChanged ==> PwmOff !in r.effects
    ensures Play(DisarmWav) in r.effects <==> d.stateChanged && d.soundOn
    ensures Play(BoomWav) in r.effects <==> !arm && pressed && d.soundOn
    // with sound off no clip plays at all
    ensures !d.soundOn ==> r.effects == (if d.stateChanged then PowerDown else [])
  {
    var boom := !arm && pressed;
    DisarmedEffectsPower(d.stateChanged, d.soundOn, boom);
    DisarmedEffectsShape(d.stateChanged, d.soundOn, boom);
    DisarmedEffectsClips(d.stateChanged, d.soundOn, boom);
    DisarmedEffectsSilent(d.stateChanged, boom);
    var t := DisarmedEffects(d.stateChanged, d.soundOn, boom);
    if arm then Step(d.(state := Armed, stateChanged := true, animationChanged := true), t)
    else Step(d.(stateChanged := false), t)
  }

  /** The Disarmed handler performs each action once: the disarm clip
      right after the power-down, the boom clip last. */
  lemma DisarmedOrder(d: Device, arm: bool, pressed: bool)
    requires d.state == Disarmed
    ensures var t := HandleDisarmed(d, arm, pressed).effects;
            && |t| == (if d.stateChanged then 3 + (if d.soundOn then 1 else 0) else 0)
                      + (if !arm && pressed && d.soundOn then 1 else 0)
            && (d.stateChanged && d.soundOn ==> |t| >= 4 && t[3] == Play(DisarmWav))
            && (!arm && pressed && d.soundOn ==> |t| >= 1 && t[|t| - 1] == Play(BoomWav))
  {
    DisarmedEffectsOrder(d.stateChanged, d.soundOn, !arm && pressed);
  }

  /** Entry actions of Armed: arm LED on, HV PWM on, arm clip. */
  function PowerUp(soundOn: bool): (t: seq<Effect>)
    ensures |t| == 2 + (if soundOn then 1 else 0) && t[..2] == [LedArm(true), PwmOn]
    ensures forall e | e in t[2..] :: e == Play(ArmWav)
    ensures Play(ArmWav) in t <==> soundOn
    ensures multiset(t)[Play(ArmWav)] == (if soundOn then 1 else 0)
    ensures Pulses(t) == 0 && PwmOff !in t && LedHv(true) !in t && LedHv(false) !in t
  {
    if soundOn then [LedArm(true), PwmOn, Play(ArmWav)] else [LedArm(true), PwmOn]
  }

  /** Prepending an effect other than `x` keeps the count of `x`. */
  lemma PrefixCount(e: Effect, t: seq<Effect>, x: Effect)
    requires e != x
    ensures multiset([e] + t)[x] == multiset(t)[x]
  {
    assert multiset([e] + t) == multiset{e} + multiset(t);
  }

  /** The trace of the charged part of the Armed handler: HV LED on, then
      `held` passes of the firing loop. */
  function HoldEffects(soundOn: bool, clip: Clip, held: nat): (t: seq<Effect>)
    ensures Pulses(t) == held
    ensures |t| > 0 && t[0] == LedHv(true)
    ensures forall e | e in t[1..] :: e == Pulse || e == Play(clip)
    ensures Play(clip) in t <==> soundOn && held > 0
    ensures LedHv(false) !in t && PwmOn !in t && PwmOff !in t
  {
    var shots := Shots(soundOn, clip, held);
    assert LedHv(false) !in shots && PwmOn !in shots && PwmOff !in shots;
    assert ([LedHv(true)] + shots)[1..] == shots;
    [LedHv(true)] + shots
  }

  /** The hold plays the clip once per pass when sound is on. */
  lemma HoldCount(soundOn: bool, clip: Clip, held: nat)
    ensures multiset(HoldEffects(soundOn, clip, held))[Play(clip)] == (if soundOn then held else 0)
  {
    PrefixCount(LedHv(true), Shots(soundOn, clip, held), Play(clip));
  }

  /** The part of `handle_armed` that runs once the switch is on and the
      capacitor charged (main.py:523-562): HV LED on, `held` passes of the
      firing loop, each restarting the timeout; after at least one pass
      advance the firing rotation; then time out to low power after more than
      60 s without a restart (raising only `stateChanged`), else consume the
      flag. Every pass writes Firing, raises both flags and writes Armed back,
      so only the last pass's writes remain. */
  function FireHeld(d: Device, held: nat, now: int): (r: Step)
    ensures Pulses(r.effects) == held
    ensures |r.effects| > 0 && r.effects[0] == LedHv(true) && LedHv(false) !in r.effects
    ensures PwmOn !in r.effects && PwmOff !in r.effects
    // every pass plays the clip the rotation pointed at before this hold
    ensures forall e | e in r.effects[1..] :: e == Pulse || e == Play(FiringWav(d.firingSongIndex))
    ensures Play(FiringWav(d.firingSongIndex)) in r.effects <==> d.soundOn && held > 0
    ensures multiset(r.effects)[Play(FiringWav(d.firingSongIndex))] == (if d.soundOn then held else 0)
    ensures r.device.firingSongIndex == (if held > 0 then NextSong(d.firingSongIndex) else d.firingSongIndex)
    ensures r.device.timeoutStart == (if held > 0 then now else d.timeoutStart)
    ensures r.device.state == LowPower <==> held == 0 && now - d.timeoutStart > TimeoutMs
    ensures r.device.state != LowPower ==> r.device.state == Armed && !r.device.stateChanged
    ensures r.device.state == LowPower ==> r.device.stateChanged && r.device.animationChanged == d.animationChanged
    ensures r.device.animationChanged == (d.animationChanged || held > 0)
    ensures r.device.substate == d.substate && r.device.soundOn == d.soundOn
    ensures r.device.lowPowerSongIndex == d.lowPowerSongIndex
  {
    var shots := HoldEffects(d.soundOn, FiringWav(d.firingSongIndex), held);
    var d1 := if held > 0 then
                d.(state := Armed, stateChanged := true, animationChanged := true, timeoutStart := now,
                   firingSongIndex := NextSong(d.firingSongIndex))
              else d;
    if now - d1.timeoutStart > TimeoutMs then
      Step(d1.(state := LowPower, stateChanged := true), shots)
    else
      Step(d1.(state := Armed, stateChanged := false), shots)
  }

  /** The trace of `handle_armed`: the entry actions when entering, then
      nothing when the switch is off, the HV LED off when not charged, or
      the hold. */
  function ArmedTrace(entering: bool, soundOn: bool, arm: bool, charged: bool, clip: Clip, held: nat): seq<Effect>
  {
    (if entering then PowerUp(soundOn) else [])
      + (if !arm then [] else if !charged then [LedHv(false)] else HoldEffects(soundOn, clip, held))
  }

  lemma ArmedTracePulses(entering: bool, soundOn: bool, arm: bool, charged: bool, clip: Clip, held: nat)
    ensures Pulses(ArmedTrace(entering, soundOn, arm, charged, clip, held)) == (if arm && charged then held else 0)
  {
  }

  lemma ArmedTracePower(entering: bool, soundOn: bool, arm: bool, charged: bool, clip: Clip, held: nat)
    ensures var t := ArmedTrace(entering, soundOn, arm, charged, clip, held);
            && (entering ==> |t| >= 2 && t[..2] == [LedArm(true), PwmOn])
            && (PwmOn in t <==> entering) && PwmOff !in t
  {
    var t := ArmedTrace(entering, soundOn, arm, charged, clip, held);
    if entering {
      assert PowerUp(soundOn) <= t;
    }
  }

  lemma ArmedTraceArmClip(entering: bool, soundOn: bool, arm: bool, charged: bool, clip: Clip, held: nat)
    requires clip.FiringWav?
    ensures Play(ArmWav) in ArmedTrace(entering, soundOn, arm, charged, clip, held) <==> entering && soundOn
  {
  }

  /** Every effect of the Armed entry: arm LED on, PWM on, or the arm clip
      with sound on. */
  lemma PowerUpShape(soundOn: bool)
    ensures forall e | e in PowerUp(soundOn) :: e == LedArm(true) || e == PwmOn || (soundOn && e == Play(ArmWav))
  {
    var t := PowerUp(soundOn);
    assert t == [LedArm(true), PwmOn] + ClipIf(soundOn, ArmWav);
  }

  /** Every effect of the hold: HV LED on, a pulse, or the clip with sound on. */
  lemma HoldShape(soundOn: bool, clip: Clip, held: nat)
    ensures forall e | e in HoldEffects(soundOn, clip, held) :: e == LedHv(true) || e == Pulse || (soundOn && e == Play(clip))
  {
    var t := HoldEffects(soundOn, clip, held);
    assert t == [LedHv(true)] + Shots(soundOn, clip, held);
  }

  /** The Armed trace is closed: each effect comes from the entry, the
      uncharged branch or the hold, and a clip only with sound on. */
  lemma ArmedTraceShape(entering: bool, soundOn: bool, arm: bool, charged: bool, clip: Clip, held: nat)
    ensures forall e | e in ArmedTrace(entering, soundOn, arm, charged, clip, held) ::
              || (entering && (e == LedArm(true) || e == PwmOn || (soundOn && e == Play(ArmWav))))
              || (arm && !charged && e == LedHv(false))
              || (arm && charged && (e == LedHv(true) || e == Pulse || (soundOn && e == Play(clip))))
  {
    var entry := if entering then PowerUp(soundOn) else [];
    var rest := if !arm then [] else if !charged then [LedHv(false)] else HoldEffects(soundOn, clip, held);
    PowerUpShape(soundOn);
    HoldShape(soundOn, clip, held);
    assert ArmedTrace(entering, soundOn, arm, charged, clip, held) == entry + rest;
  }

  /** On the charged path every clip of the Armed trace is the arm clip or
      the given firing clip. */
  lemma ArmedTraceClips(entering: bool, soundOn: bool, arm: bool, charged: bool, clip: Clip, held: nat)
    ensures arm && charged ==>
              forall e | e in ArmedTrace(entering, soundOn, arm, charged, clip, held) ::
                e.Play? ==> e.clip == ArmWav || e.clip == clip
  {
    ArmedTraceShape(entering, soundOn, arm, charged, clip, held);
  }

  /** Off the charged path the only clip of the Armed trace is the arm clip. */
  lemma ArmedTraceOnlyArmClip(entering: bool, soundOn: bool, arm: bool, charged: bool, clip: Clip, held: nat)
    ensures !(arm && charged) ==>
              forall e | e in ArmedTrace(entering, soundOn, arm, charged, clip, held) :: e.Play? ==> e.clip == ArmWav
  {
    ArmedTraceShape(entering, soundOn, arm, charged, clip, held);
  }

  /** With sound off the Armed trace plays nothing. */
  lemma ArmedTraceSilent(entering: bool, soundOn: bool, arm: bool, charged: bool, clip: Clip, held: nat)
    ensures !soundOn ==> forall e | e in ArmedTrace(entering, soundOn, arm, charged, clip, held) :: !e.Play?
  {
    ArmedTraceShape(entering, soundOn, arm, charged, clip, held);
  }

  /** The Armed handler never turns the arm LED off. */
  lemma ArmedTraceArmLedStaysOn(entering: bool, soundOn: bool, arm: bool, charged: bool, clip: Clip, held: nat)
    ensures LedArm(false) !in ArmedTrace(entering, soundOn, arm, charged, clip, held)
  {
    ArmedTraceShape(entering, soundOn, arm, charged, clip, held);
  }

  lemma ArmedTraceFiringClip(entering: bool, soundOn: bool, arm: bool, charged: bool, clip: Clip, held: nat)
    requires clip.FiringWav?
    ensures arm && charged ==>
              (Play(clip) in ArmedTrace(entering, soundOn, arm, charged, clip, held) <==> soundOn && held > 0)
  {
  }

  /** Counts add up over a concatenation. */
  lemma ConcatCount(a: seq<Effect>, b: seq<Effect>, x: Effect)
    ensures multiset(a + b)[x] == multiset(a)[x] + multiset(b)[x]
  {
    assert multiset(a + b) == multiset(a) + multiset(b);
  }

  /** On the charged path the firing clip plays once per pass with sound on;
      off it, never. */
  lemma ArmedTraceFiringCount(entering: bool, soundOn: bool, arm: bool, charged: bool, clip: Clip, held: nat)
    requires clip.FiringWav?
    ensures multiset(ArmedTrace(entering, soundOn, arm, charged, clip, held))[Play(clip)] ==
              (if arm && charged && soundOn then held else 0)
  {
    var entry := if entering then PowerUp(soundOn) else [];
    var rest := if !arm then [] else if !charged then [LedHv(false)] else HoldEffects(soundOn, clip, held);
    assert ArmedTrace(entering, soundOn, arm, charged, clip, held) == entry + rest;
    ConcatCount(entry, rest, Play(clip));
    if entering {
      PowerUpShape(soundOn);
      assert Play(clip) !in entry;
    }
    if arm && charged {
      HoldCount(soundOn, clip, held);
    }
  }

  /** The part of the Armed trace after the entry never plays the arm clip. */
  lemma ArmedRestNoArmClip(arm: bool, charged: bool, soundOn: bool, clip: Clip, held: nat)
    requires clip.FiringWav?
    ensures Play(ArmWav) !in (if !arm then [] else if !charged then [LedHv(false)] else HoldEffects(soundOn, clip, held))
  {
    if arm && charged {
      HoldShape(soundOn, clip, held);
    }
  }

  /** The arm clip plays exactly once on entry with sound on, else never. */
  lemma ArmedTraceArmCount(entering: bool, soundOn: bool, arm: bool, charged: bool, clip: Clip, held: nat)
    requires clip.FiringWav?
    ensures multiset(ArmedTrace(entering, soundOn, arm, charged, clip, held))[Play(ArmWav)] ==
              (if entering && soundOn then 1 else 0)
  {
    var entry := if entering then PowerUp(soundOn) else [];
    var rest := if !arm then [] else if !charged then [LedHv(false)] else HoldEffects(soundOn, clip, held);
    assert ArmedTrace(entering, soundOn, arm, charged, clip, held) == entry + rest;
    ConcatCount(entry, rest, Play(ArmWav));
    ArmedRestNoArmClip(arm, charged, soundOn, clip, held);
    assert multiset(rest)[Play(ArmWav)] == 0;
    ArmedEntryArmCount(entering, soundOn);
  }

  /** The Armed entry plays the arm clip once with sound on. */
  lemma ArmedEntryArmCount(entering: bool, soundOn: bool)
    ensures multiset(if entering then PowerUp(soundOn) else [])[Play(ArmWav)] == (if entering && soundOn then 1 else 0)
  {
  }

  lemma ArmedTraceHvLed(entering: bool, soundOn: bool, arm: bool, charged: bool, clip: Clip, held: nat)
    ensures var t := ArmedTrace(entering, soundOn, arm, charged, clip, held);
            && (arm && !charged ==> LedHv(false) in t && LedHv(true) !in t)
            && (arm && charged ==> LedHv(true) in t && LedHv(false) !in t)
  {
  }

  /** The globals `handle_armed` leaves: the entry restarts the timeout;
      switch off disarms with both flags; not charged returns with the flag
      as it was; charged is `FireHeld`. */
  function ArmedDevice(d: Device, arm: bool, charged: bool, held: nat, now: int): (r: Device)
    requires d.state == Armed
    ensures r.firingSongIndex ==
              (if arm && charged && held > 0 then NextSong(d.firingSongIndex) else d.firingSongIndex)
    ensures !arm ==> r.state == Disarmed && r.stateChanged && r.animationChanged
    ensures r.state == Disarmed <==> !arm
    ensures arm && !charged ==> r.state == Armed && r.stateChanged == d.stateChanged
    ensures r.state == LowPower <==>
              arm && charged && held == 0 && !d.stateChanged && now - d.timeoutStart > TimeoutMs
    ensures r.state in {Armed, Disarmed, LowPower}
    ensures r.timeoutStart == (if d.stateChanged || (arm && charged && held > 0) then now else d.timeoutStart)
    ensures r.substate == d.substate && r.soundOn == d.soundOn
    ensures r.lowPowerSongIndex == d.lowPowerSongIndex
    ensures r.state != Armed ==> r.stateChanged
    ensures arm && charged && r.state == Armed ==> !r.stateChanged
    ensures r.animationChanged == (d.animationChanged || !arm || (charged && held > 0))
  {
    var d1 := if d.stateChanged then d.(timeoutStart := now) else d;
    if !arm then d1.(state := Disarmed, stateChanged := true, animationChanged := true)
    else if !charged then d1
    else FireHeld(d1, held, now).device
  }

  /** The trace of `handle_armed` with its properties. */
  function ArmedEffects(d: Device, arm: bool, charged: bool, held: nat): (t: seq<Effect>)
    ensures Pulses(t) == (if arm && charged then held else 0)
    ensures arm && !charged ==> LedHv(false) in t && LedHv(true) !in t
    ensures arm && charged ==> LedHv(true) in t && LedHv(false) !in t
    ensures d.stateChanged <==> PwmOn in t
    ensures PwmOff !in t
    ensures Play(ArmWav) in t <==> d.stateChanged && d.soundOn
    ensures arm && charged ==> (Play(FiringWav(d.firingSongIndex)) in t <==> d.soundOn && held > 0)
    ensures !(arm && charged) ==> forall e | e in t :: e.Play? ==> e.clip == ArmWav
    ensures arm && charged ==> forall e | e in t :: e.Play? ==> e.clip == ArmWav || e.clip == FiringWav(d.firingSongIndex)
    ensures !d.soundOn ==> forall e | e in t :: !e.Play?
    ensures LedArm(false) !in t
  {
    var clip := FiringWav(d.firingSongIndex);
    ArmedTraceClips(d.stateChanged, d.soundOn, arm, charged, clip, held);
    ArmedTraceOnlyArmClip(d.stateChanged, d.soundOn, arm, charged, clip, held);
    ArmedTraceSilent(d.stateChanged, d.soundOn, arm, charged, clip, held);
    ArmedTraceArmLedStaysOn(d.stateChanged, d.soundOn, arm, charged, clip, held);
    ArmedTracePulses(d.stateChanged, d.soundOn, arm, charged, clip, held);
    ArmedTracePower(d.stateChanged, d.soundOn, arm, charged, clip, held);
    ArmedTraceArmClip(d.stateChanged, d.soundOn, arm, charged, clip, held);
    ArmedTraceFiringClip(d.stateChanged, d.soundOn, arm, charged, clip, held);
    ArmedTraceHvLed(d.stateChanged, d.soundOn, arm, charged, clip, held);
    ArmedTrace(d.stateChanged, d.soundOn, arm, charged, clip, held)
  }

  /** How often the Armed handler plays each clip: the arm clip once on
      entry, the current firing clip once per pass of the hold, and only with
      sound on. */
  lemma ArmedEffectsCounts(d: Device, arm: bool, charged: bool, held: nat)
    ensures multiset(ArmedEffects(d, arm, charged, held))[Play(ArmWav)] ==
              (if d.stateChanged && d.soundOn then 1 else 0)
    ensures multiset(ArmedEffects(d, arm, charged, held))[Play(FiringWav(d.firingSongIndex))] ==
              (if arm && charged && d.soundOn then held else 0)
  {
    var clip := FiringWav(d.firingSongIndex);
    ArmedTraceArmCount(d.stateChanged, d.soundOn, arm, charged, clip, held);
    ArmedTraceFiringCount(d.stateChanged, d.soundOn, arm, charged, clip, held);
  }

  /** `handle_armed`. `held` is the number of passes of the firing hold loop
      (how long the pulse button stays pressed) and `now` the clock reading
      used for every `ticks_ms` in this call.

      Entry (state just changed): power up and restart the timeout. Arm switch
      off: go Disarmed with both flags. Not charged: HV LED off and return at
      once, leaving the state-changed flag as it was, so the entry actions
      repeat on the next tick. Charged: `FireHeld`. */
  function HandleArmed(d: Device, arm: bool, charged: bool, held: nat, now: int): (r: Step)
    requires d.state == Armed
    // the interlock: pulses only with the switch on and the capacitor charged
    ensures Pulses(r.effects) == (if arm && charged then held else 0)
    ensures r.device.firingSongIndex ==
              (if arm && charged && held > 0 then NextSong(d.firingSongIndex) else d.firingSongIndex)
    ensures !arm ==> r.device.state == Disarmed && r.device.stateChanged && r.device.animationChanged
    // only the switch disarms
    ensures r.device.state == Disarmed <==> !arm
    ensures arm && !charged ==> r.device.state == Armed && r.device.stateChanged == d.stateChanged
    ensures arm && !charged ==> LedHv(false) in r.effects && LedHv(true) !in r.effects
    ensures arm && charged ==> LedHv(true) in r.effects && LedHv(false) !in r.effects
    // timeout: only when charged, idle this call, and more than 60 s since the last restart
    ensures r.device.state == LowPower <==>
              arm && charged && held == 0 && !d.stateChanged && now - d.timeoutStart > TimeoutMs
    ensures r.device.state in {Armed, Disarmed, LowPower}
    // the timeout restarts on entry and on every pulse
    ensures r.device.timeoutStart ==
              (if d.stateChanged || (arm && charged && held > 0) then now else d.timeoutStart)
    ensures d.stateChanged <==> PwmOn in r.effects
    ensures PwmOff !in r.effects
    ensures r.device.substate == d.substate && r.device.soundOn == d.soundOn
    ensures r.device.lowPowerSongIndex == d.lowPowerSongIndex
    // a charged tick that stays Armed consumes the flag; leaving always raises it
    ensures r.device.state != Armed ==> r.device.stateChanged
    ensures arm && charged && r.device.state == Armed ==> !r.device.stateChanged
    ensures r.device.animationChanged == (d.animationChanged || !arm || (charged && held > 0))
    // clips: the arm clip once on entry, the current firing clip once per pass, each only with sound on
    ensures Play(ArmWav) in r.effects <==> d.stateChanged && d.soundOn
    ensures multiset(r.effects)[Play(ArmWav)] == (if d.stateChanged && d.soundOn then 1 else 0)
    ensures multiset(r.effects)[Play(FiringWav(d.firingSongIndex))] ==
              (if arm && charged && d.soundOn then held else 0)
    ensures arm && charged ==> (Play(FiringWav(d.firingSongIndex)) in r.effects <==> d.soundOn && held > 0)
    ensures !(arm && charged) ==> forall e | e in r.effects :: e.Play? ==> e.clip == ArmWav
    ensures arm && charged ==>
              forall e | e in r.effects :: e.Play? ==> e.clip == ArmWav || e.clip == FiringWav(d.firingSongIndex)
    ensures !d.soundOn ==> forall e | e in r.effects :: !e.Play?
    ensures LedArm(false) !in r.effects
  {
    ArmedEffectsCounts(d, arm, charged, held);
    Step(ArmedDevice(d, arm, charged, held, now), ArmedEffects(d, arm, charged, held))
  }

  /** `handle_low_power`: entry actions and rotation reset when the state just
      changed; a None substate becomes Chase; a pressed pulse button plays the
      next low-power clip and advances the rotation, but only with sound on;
      the state-changed flag is consumed. */
  function HandleLowPower(d: Device, pressed: bool): (r: Step)
    requires d.state == LowPower
    ensures r.device.state == LowPower && !r.device.stateChanged
    ensures r.device.substate != None
    ensures d.substate == None ==> r.device.substate == Chase
    ensures d.substate != None ==> r.device.substate == d.substate
    ensures d.stateChanged ==> |r.effects| >= 3 && r.effects[..3] == PowerDown
    ensures !d.stateChanged ==> PwmOff !in r.effects
    ensures Pulses(r.effects) == 0 && PwmOn !in r.effects
    ensures var base := if d.stateChanged then 0 else d.lowPowerSongIndex;
            && r.device.lowPowerSongIndex == (if pressed && d.soundOn then NextSong(base) else base)
            && (Play(LowPowerWav(base)) in r.effects <==> pressed && d.soundOn)
            // nothing but the power-down and that one clip
            && (forall e | e in r.effects :: e in PowerDown || e == Play(LowPowerWav(base)))
            && (!d.stateChanged ==> forall e | e in r.effects :: e == Play(LowPowerWav(base)))
    ensures |r.effects| == (if d.stateChanged then 3 else 0) + (if pressed && d.soundOn then 1 else 0)
    ensures !d.soundOn ==> r.effects == (if d.stateChanged then PowerDown else [])
    ensures r.device.(substate := d.substate, stateChanged := d.stateChanged,
                      lowPowerSongIndex := d.lowPowerSongIndex) == d
  {
    var entry := if d.stateChanged then PowerDown else [];
    var base: SongIndex := if d.stateChanged then 0 else d.lowPowerSongIndex;
    var sub := if d.substate == None then Chase else d.substate;
    if pressed && d.soundOn then
      Step(d.(substate := sub, lowPowerSongIndex := NextSong(base), stateChanged := false),
           entry + [Play(LowPowerWav(base))])
    else
      Step(d.(substate := sub, lowPowerSongIndex := base, stateChanged := false), entry)
  }

  /** `handle_sound_on`: play the confirmation clip, restore the saved state,
      clear the substate, consume `stateChanged` and raise `animationChanged`. */
  function HandleSoundOn(d: Device): (r: Step)
    requires d.substate.Saved?
    ensures r.device.state == d.substate.prior && r.device.substate == None
    ensures !r.device.stateChanged && r.device.animationChanged
    ensures r.effects == [Play(SoundOnWav)]
    ensures r.device.soundOn == d.soundOn && r.device.timeoutStart == d.timeoutStart
    ensures r.device.firingSongIndex == d.firingSongIndex && r.device.lowPowerSongIndex == d.lowPowerSongIndex
  {
    Step(d.(state := d.substate.prior, substate := None, stateChanged := false, animationChanged := true),
         [Play(SoundOnWav)])
  }

  /** `handle_sound_off`: play the confirmation clip, restore the saved state,
      clear the substate and raise `stateChanged`; `animationChanged` is left
      as it was. */
  function HandleSoundOff(d: Device): (r: Step)
    requires d.substate.Saved?
    ensures r.device.state == d.substate.prior && r.device.substate == None
    ensures r.device.stateChanged && r.device.animationChanged == d.animationChanged
    ensures r.effects == [Play(NoSoundWav)]
    ensures r.device.soundOn == d.soundOn && r.device.timeoutStart == d.timeoutStart
    ensures r.device.firingSongIndex == d.firingSongIndex && r.device.lowPowerSongIndex == d.lowPowerSongIndex
  {
    Step(d.(state := d.substate.prior, substate := None, stateChanged := true), [Play(NoSoundWav)])
  }

  /** The only way into a sound pseudo-state is the combo, which saves the
      current state in the substate; the sound handlers rely on that. */
  predicate SavedDuringToggle(d: Device)
  {
    IsSoundToggle(d.state) ==> d.substate.Saved?
  }

  /** The `if/elif` chain of `update` (main.py:431-440). States with no branch
      (Startup, Firing, Error) are left alone. */
  function Dispatch(d: Device, i: Inputs): (r: Step)
    requires SavedDuringToggle(d)
    ensures d.state !in {Disarmed, Armed, LowPower, SoundOn, SoundOff} ==> r == Step(d, [])
    ensures Pulses(r.effects) > 0 ==> d.state == Armed && i.arm && i.charged
    ensures d.state == Disarmed && !i.arm ==> r.device.state == Disarmed && !r.device.stateChanged
    ensures d.state in {Disarmed, Armed} ==> r.device.state in {Disarmed, Armed, LowPower}
  {
    match d.state
    case Disarmed => HandleDisarmed(d, i.arm, Pressed(i))
    case Armed => HandleArmed(d, i.arm, i.charged, i.held, i.now)
    case LowPower => HandleLowPower(d, Pressed(i))
    case SoundOn => HandleSoundOn(d)
    case SoundOff => HandleSoundOff(d)
    case _ => Step(d, [])
  }

  /** One control tick, `update`. The Startup test is a separate `if`, so the
      Disarmed or Armed handler runs on the state start-up just chose, in the
      same tick. */
  function Update(d: Device, i: Inputs): (r: Step)
    requires SavedDuringToggle(d)
    ensures Pulses(r.effects) > 0 ==> i.arm && i.charged && d.state in {Startup, Armed}
    ensures d.state in {Firing, Error} ==> r == Step(d, [])
  {
    if d.state == Startup then
      var s := HandleStartup(d, i.arm);
      var t := Dispatch(s.device, i);
      Step(t.device, s.effects + t.effects)
    else
      Dispatch(d, i)
  }
}

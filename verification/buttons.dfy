/** The two rising-edge button callbacks (main.py:55-134). Each runs as one
    atomic step on the controller globals; the debounce sleep is abstracted to
    the two button levels it samples afterwards. The callbacks touch no
    hardware, so they return the new globals only. */
module Buttons {
  import opened DeviceModel

  /** The low-power button's substate cycle: None -> Chase -> Rainbow ->
      Twinkle -> Wave -> Chase. A saved state matches no branch and stays. */
  function NextPattern(s: Substate): (t: Substate)
    ensures s.Saved? <==> t.Saved?
    ensures s.Saved? ==> t == s
    ensures s == None ==> t == Chase
    ensures forall k {:trigger Cycle[k]} | 0 <= k < |Cycle| :: s == Cycle[k] ==> t == Cycle[(k + 1) % |Cycle|]
  {
    match s
    case None => Chase
    case Chase => Rainbow
    case Rainbow => Twinkle
    case Twinkle => Wave
    case Wave => Chase
    case Saved(_) => s
  }

  /** The two-button combo, shared by both callbacks: flip sound, remember the
      current state in `substate`, and enter the matching sound pseudo-state.
      The transition flags are left alone. */
  function Toggle(d: Device): (r: Device)
    ensures r.soundOn == !d.soundOn
    ensures r.substate == Saved(d.state)
    ensures r.state == SoundOn <==> r.soundOn
    ensures IsSoundToggle(r.state)
    ensures r.(state := d.state, substate := d.substate, soundOn := d.soundOn) == d
  {
    var on := !d.soundOn;
    d.(soundOn := on, substate := Saved(d.state), state := if on then SoundOn else SoundOff)
  }

  /** `low_power_callback`: ignored during a sound toggle; both buttons up
      after the debounce is the combo; otherwise enter low power and advance
      the pattern, raising both transition flags. */
  function LowPowerCallback(d: Device, lowPowerLevel: bool, wakeupLevel: bool): (r: Device)
    ensures IsSoundToggle(d.state) ==> r == d
    ensures !IsSoundToggle(d.state) && lowPowerLevel && wakeupLevel ==> r == Toggle(d)
    ensures !IsSoundToggle(d.state) && !(lowPowerLevel && wakeupLevel) ==>
              && r.state == LowPower
              && r.substate == NextPattern(d.substate)
              && r.stateChanged && r.animationChanged
              && r.(state := d.state, substate := d.substate, stateChanged := d.stateChanged,
                    animationChanged := d.animationChanged) == d
  {
    if IsSoundToggle(d.state) then d
    else if lowPowerLevel && wakeupLevel then Toggle(d)
    else d.(state := LowPower, substate := NextPattern(d.substate), stateChanged := true, animationChanged := true)
  }

  /** `wakeup_callback`: ignored during a sound toggle; the combo as above;
      otherwise follow the arm switch to Armed or Disarmed, raise the flags
      only when the state actually changes, and clear the substate. */
  function WakeupCallback(d: Device, lowPowerLevel: bool, wakeupLevel: bool, armLevel: bool): (r: Device)
    ensures IsSoundToggle(d.state) ==> r == d
    ensures !IsSoundToggle(d.state) && lowPowerLevel && wakeupLevel ==> r == Toggle(d)
    ensures !IsSoundToggle(d.state) && !(lowPowerLevel && wakeupLevel) ==>
              && (r.state == Armed <==> armLevel)
              && (r.state == Disarmed <==> !armLevel)
              && r.substate == None
              && r.stateChanged == (d.stateChanged || r.state != d.state)
              && r.animationChanged == (d.animationChanged || r.state != d.state)
              && r.soundOn == d.soundOn
              && r.firingSongIndex == d.firingSongIndex
              && r.lowPowerSongIndex == d.lowPowerSongIndex
              && r.timeoutStart == d.timeoutStart
  {
    if IsSoundToggle(d.state) then d
    else if lowPowerLevel && wakeupLevel then Toggle(d)
    else
      var target := if armLevel then Armed else Disarmed;
      var moved := d.state != target;
      d.(state := target, substate := None,
         stateChanged := d.stateChanged || moved,
         animationChanged := d.animationChanged || moved)
  }

  /** Apply `n` plain presses of the low-power button (no combo). */
  function Presses(d: Device, n: nat): Device
    decreases n
  {
    if n == 0 then d else LowPowerCallback(Presses(d, n - 1), true, false)
  }

  /** The patterns in the order successive presses visit them. */
  const Cycle: seq<Substate> := [Chase, Rainbow, Twinkle, Wave]

  /** From a device outside a sound toggle whose substate is None, the n-th
      press (n >= 1) lands on Cycle[(n - 1) % 4], in low power with both
      flags raised. */
  lemma {:induction false} PressesCycle(d: Device, n: nat)
    requires !IsSoundToggle(d.state) && d.substate == None
    requires n >= 1
    ensures Presses(d, n).state == LowPower
    ensures Presses(d, n).substate == Cycle[(n - 1) % 4]
    ensures Presses(d, n).stateChanged && Presses(d, n).animationChanged
    ensures Presses(d, n).soundOn == d.soundOn
    decreases n
  {
    if n > 1 {
      PressesCycle(d, n - 1);
      var k := (n - 2) % 4;
      assert (n - 1) % 4 == (k + 1) % 4;
    }
  }

  /** Four further presses in low power return to the same pattern. */
  lemma PatternPeriodFour(s: Substate)
    requires s in Cycle
    ensures NextPattern(NextPattern(NextPattern(NextPattern(s)))) == s
  {
  }
}

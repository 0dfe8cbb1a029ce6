# Raygun controller model

A Dafny model of the control core of the DEFCON32 Raygun firmware
(`main.py`). The firmware has four parts. Two button interrupt callbacks
switch the device between Disarmed, Armed and low power. The same callbacks
turn sound on and off when both buttons are pressed together. A main loop
calls `update` every 100 ms, and `update` runs the handler of the current
state. Those handlers drive the HV transformer PWM, the arm and HV LEDs, the
pulse output and the audio clips. A second core runs the LED animation
thread, which picks a pattern from the shared globals.

The model has six modules:

- `DeviceModel` (`device.dfy`): the globals (`state`, `substate`,
  `state_changed`, `animation_changed`, `sound_on`, the two song indices,
  `timeout_start`) and the hardware effects a handler has, as a trace of
  `Effect` values.
- `Buttons` (`buttons.dfy`): `low_power_callback` and `wakeup_callback`, each
  one atomic step on the globals.
- `Control` (`control.dfy`): `update` and the six state handlers. Each is a
  pure function from the globals and one tick's inputs to new globals plus
  an effect trace. Each input is sampled once per tick: the arm switch, the
  charge sensor, the number of passes the firing hold loop makes, and the
  clock.
- `Safety` (`safety.dfy`): runs of interleaved button edges and ticks, and
  the properties that hold over them.
- `Colour` and `LedGroups` (`colour.dfy`, `led_groups.dfy`): `wheel`, the
  28-group table over the 76-LED strip, and the buffer writes built on that
  table.
- `Animation` (`animation.dfy`): one pass of `animation_thread`, and the
  chase and rainbow patterns.

Some behaviours of the code are easy to misread. The model follows the code
in each of them:

- `update` tests `Startup` with its own `if`. So start-up runs the Disarmed
  or Armed handler in the same tick.
- `startup.wav` plays whatever the sound setting.
- The Disarmed handler writes `Error` while the boom clip plays. It writes
  `Disarmed` back before it returns, so `Error` never persists.
- The Armed handler returns early when the capacitor is not charged. Then the
  60 s timeout is never checked and `state_changed` stays as it was. A
  pending entry therefore repeats on every uncharged tick.
- The firing rotation advances once per hold of the pulse button, not once
  per pulse.
- A sound toggle stores the current state in `substate`. The confirmation
  handler restores that state and resets `substate` to `"None"`. Toggling
  during low power therefore forgets the pattern, and the next low-power tick
  starts the chase again.
- The sound-on confirmation clears `state_changed`. Suppose the device has
  already left Armed for Disarmed, with the Disarmed entry still pending.
  That happens when the wakeup button is pressed with the arm switch off, or
  when an Armed tick sees the switch off. If the sound-on combo now comes
  before the next tick, the Disarmed entry never runs, and the HV PWM stays
  on while the device rests in Disarmed. A combo made while the device is
  still Armed is harmless, because the saved state is then Armed.
  `Safety.HvSafePreserved` holds for every step except a Sound On tick with
  `state_changed` set and a saved state other than Armed. That exception
  also covers a pending low-power entry. `Safety.HvLeftOnWhileDisarmed`
  gives a concrete run from power-on that reaches the unsafe state.
  `Safety.DisarmedKeepsPwm` shows that later ticks with the switch off never
  turn the drive off.

## Model

| member | source | states |
|---|---|---|
| Buttons.NextPattern | main.py:83-92 | None goes to Chase; each pattern goes to the next of Chase, Rainbow, Twinkle, Wave, and Wave back to Chase; a saved state matches no branch and stays |
| Buttons.PatternPeriodFour | main.py:83-92 | four further presses in low power return to the same pattern |
| Buttons.Toggle | main.py:69-76 | the combo flips sound, remembers the current state and enters the sound pseudo-state that matches the new setting, leaving everything else alone |
| Buttons.LowPowerCallback | main.py:55-96 | ignored during a sound toggle; the combo when both buttons read high after the debounce; otherwise low power with the next pattern and both flags raised, nothing else changed |
| Buttons.WakeupCallback | main.py:98-134 | ignored during a sound toggle; the combo; otherwise Armed exactly when the arm switch is on, flags raised only on a real change, substate cleared, sound, song indices and timeout untouched |
| Buttons.PressesCycle | main.py:83-96 | from a substate of None, the n-th low-power press lands on Chase, Rainbow, Twinkle, Wave in turn (period four) with both flags raised and sound kept |
| Control.Shots | main.py:527-550 | k passes of the firing loop emit exactly k pulses and otherwise only the current firing clip, which plays once per pass when sound is on (k times) and never otherwise |
| Control.HandleStartup | main.py:443-458 | plays the start-up clip, goes Armed or Disarmed by the arm switch with both flags raised, and changes nothing else |
| Control.DisarmEntry | main.py:465-472 | the Disarmed entry starts with arm LED off, PWM off, HV LED off; after that only the disarm clip, which plays exactly when sound is on; three effects plus one for the clip; never a pulse, power-up or boom |
| Control.DisarmedEffectsPower | main.py:465-487 | the Disarmed trace never pulses or powers up; it starts with the power-down when entering and never touches the PWM otherwise |
| Control.DisarmedEffectsShape | main.py:465-487 | after the power-down the Disarmed trace holds only the disarm and boom clips; without an entry it holds only the boom clip |
| Control.DisarmedEffectsClips | main.py:465-487 | the disarm clip plays exactly on entry with sound on; boom plays exactly when asked with sound on |
| Control.DisarmedEffectsSilent | main.py:465-487 | with sound off the Disarmed trace is the power-down on entry and empty otherwise |
| Control.HandleDisarmed | main.py:460-489 | arm switch on: Armed with both flags raised; otherwise stays Disarmed with `state_changed` consumed; no pulse or power-up ever; power-down first on entry, then only the disarm and boom clips; disarm clip exactly on entry with sound on; boom exactly for a press with the switch off and sound on; with sound off the trace is just the power-down on entry and empty otherwise |
| Control.DisarmedEffectsOrder | main.py:465-487 | the Disarmed trace has exactly one effect per action taken; the disarm clip comes right after the power-down and the boom clip last |
| Control.DisarmedOrder | main.py:460-489 | the Disarmed handler's trace has the power-down (3) plus the disarm clip on entry with sound, plus the boom clip for a press with the switch off and sound on, and nothing more; the disarm clip (line 470) precedes the boom clip (line 484) |
| Control.PowerUp | main.py:500-509 | the Armed entry turns the arm LED and then the PWM on, then only the arm clip, once exactly when sound is on; two effects plus one for the clip; never a pulse, PWM off or HV LED change |
| Control.PowerUpShape | main.py:500-509 | every effect of the Armed entry is the arm LED on, the PWM on, or the arm clip with sound on |
| Control.HoldEffects | main.py:523-550 | the charged trace: HV LED on first, then exactly `held` pulses and otherwise only the given clip, which plays exactly when sound is on and a pass ran; no PWM or HV-LED-off effect |
| Control.HoldCount | main.py:527-533 | the hold plays the clip once per pass: `held` times with sound on, never with sound off |
| Control.HoldShape | main.py:523-550 | every effect of the hold is the HV LED on, a pulse, or the given clip with sound on |
| Control.FireHeld | main.py:523-562 | exactly `held` pulses; with sound on every pass plays the clip the rotation pointed at before the hold, so it plays `held` times, and with sound off never; the rotation and the timeout restart advance only if one fired; low power exactly when idle and more than 60 s have passed since the restart; otherwise Armed with the flag consumed; the low-power rotation is untouched |
| Control.ArmedDevice | main.py:491-562 | the globals the Armed handler leaves: Disarmed exactly when the switch is off, then with both flags; Armed with the flag as it was when uncharged; the rotation and timeout restart as for the hold; low power exactly when charged, idle, not entering and past 60 s |
| Control.ArmedTraceShape | main.py:500-550 | every effect of the Armed trace comes from the entry (arm LED on, PWM on, arm clip with sound on), the uncharged branch (HV LED off) or the hold (HV LED on, pulses, firing clip with sound on) |
| Control.ArmedEffects | main.py:500-550 | the Armed trace: exactly `held` pulses only with switch and charge; PWM on exactly on entry, never off; arm LED never off; the arm clip exactly on entry with sound on; on the charged path only the arm clip and the current firing clip, the latter exactly when sound is on and a pass ran; off the charged path only the arm clip; with sound off no clip at all |
| Control.ArmedTraceFiringCount | main.py:523-533 | the firing clip plays once per pass of the hold with the switch on, charged and sound on, and never otherwise |
| Control.ArmedTraceArmCount | main.py:500-509 | the arm clip plays exactly once on entry with sound on, and never otherwise |
| Control.ArmedEffectsCounts | main.py:500-550 | the Armed trace plays the arm clip once on entry with sound on, and the current firing clip once per pass of the hold (`held` times) with the switch on, charged and sound on; otherwise zero times |
| Control.HandleArmed | main.py:491-562 | pulses only with the switch on and the capacitor charged, and then exactly `held`; Disarmed exactly when the switch is off; uncharged keeps the flag and turns the HV LED off; timeout only when charged, idle, not entering and past 60 s; a charged tick that stays Armed consumes the flag; `animation_changed` is raised by a disarm or a shot; PWM on exactly on entry, never off; arm LED never off; clips only the arm clip, once on entry with sound on, and, on the charged path, the current firing clip, once per pass with sound on; with sound off no clip; the low-power rotation is untouched |
| Control.HandleLowPower | main.py:564-593 | stays in low power with the flag consumed; a None substate becomes Chase and any other is kept; the trace is the power-down on entry plus the current low-power clip exactly for a press with sound on, and nothing else (its length is fixed by those two); the rotation resets on entry and advances exactly for a press with sound on |
| Control.HandleSoundOn | main.py:596-609 | restores the saved state, clears the substate, consumes `state_changed`, raises `animation_changed`, plays the sound-on clip, and leaves sound, timeout and both rotations alone |
| Control.HandleSoundOff | main.py:611-622 | restores the saved state, clears the substate, raises `state_changed`, leaves `animation_changed`, plays the no-sound clip, and leaves sound, timeout and both rotations alone |
| Control.Dispatch | main.py:431-440 | states without a branch are left alone; pulses only from Armed with switch and charge; a Disarmed tick with the switch off stays Disarmed with the flag consumed |
| Control.Update | main.py:426-440 | a tick pulses only with switch and charge, from Startup or Armed; a resting Firing or Error would be left alone |
| Safety.Apply | main.py:55-134 | every button edge or tick keeps the globals consistent; edges have no effects; pulses come only from a tick with switch on and charge |
| Safety.Run | main.py:629-633 | a run of steps keeps the globals consistent, and a run without ticks has no effects |
| Safety.UpdateConsistent | main.py:426-622 | a tick from consistent globals leaves them consistent |
| Safety.DispatchConsistent | main.py:431-440 | the handler a tick dispatches to leaves consistent globals consistent |
| Safety.ReachableConsistent | main.py:16-22 | from the initial globals, no run ever rests in Firing or Error, and outside low power and the sound toggle the substate is None |
| Safety.SoundToggleRoundTrip | main.py:69-76 | the combo flips sound and saves the state; with its confirmation the state is back and the substate is cleared; a second toggle restores the sound setting too |
| Safety.ButtonsIgnoredDuringToggle | main.py:62-64 | while a confirmation is pending both callbacks leave the globals unchanged |
| Safety.ToggleFlags | main.py:596-622 | sound on consumes `state_changed` and raises `animation_changed`; sound off raises `state_changed` and keeps `animation_changed` |
| Safety.StartupDisarmed | main.py:429-432 | start-up with the switch off ends the first tick Disarmed and powered down, with the start-up clip first |
| Safety.StartupArmed | main.py:429-434 | start-up with the switch on runs the Armed entry in the same tick: start-up clip, arm LED, PWM on, and the timeout starts now |
| Safety.ArmedEntryFirst | main.py:500-522 | entering Armed with the switch on, the trace begins with the arm LED and the PWM turning on |
| Safety.ArmFromDisarmed | main.py:474-479 | the switch on arms the device on the next tick, and the tick after that runs the power-up |
| Safety.FiringInterlock | main.py:512-554 | pulses only from Startup or Armed with switch on and charge; from Armed exactly `held` pulses and one rotation step per hold that fired |
| Safety.SoundOffSilences | main.py:426-622 | with sound off a tick plays no clip but the start-up clip and the confirmation clips of the sound toggle |
| Safety.DispatchSilent | main.py:431-440 | with sound off the dispatched handler plays no clip but a toggle confirmation |
| Safety.UnchargedRepeatsEntry | main.py:500-522 | uncharged: stays Armed, no pulse, the entry flag is kept, so the power-up and the timeout restart repeat |
| Safety.UnchargedNeverTimesOut | main.py:519-522 | any number of uncharged ticks with the switch on stay Armed without a pulse, however much time passes |
| Safety.TimeoutOnce | main.py:556-593 | idle and charged past 60 s drops to low power; the next tick powers down once; later ticks stay in low power without repeating it |
| Safety.PulsePreventsTimeout | main.py:527-560 | a pulse in the same tick restarts the timeout, so the tick stays Armed |
| Safety.LowPowerSongs | main.py:571-593 | in low power the rotation restarts on entry and advances exactly for a press with sound on; entry powers down |
| Safety.PwmAfterConcat | main.py:373-386 | the PWM level after two traces is the level after the second, started from the level after the first |
| Safety.PwmAfterUntouched | main.py:373-386 | a trace without PWM effects leaves the level as it was |
| Safety.PwmAfterPowerDown | main.py:465-468 | a trace that starts with the power-down entry and never powers up leaves the PWM off |
| Safety.PwmStaysOff | main.py:373-376 | an off PWM stays off through any trace without a power-up |
| Safety.HvSafePreserved | main.py:426-622 | every step keeps the PWM on only while Armed or with an exit pending, except a sound-on confirmation that interrupts a pending exit to a saved state other than Armed |
| Safety.HvSafeTick | main.py:426-440 | a control tick keeps the PWM safe, with the same exception |
| Safety.HvSafeSoundOn | main.py:596-609 | the sound-on confirmation keeps the PWM safe when no exit is pending or the saved state is Armed |
| Safety.HvSafeStartup | main.py:429-434 | the start-up tick keeps the PWM safe |
| Safety.HvSafeDisarmed | main.py:460-489 | the Disarmed handler keeps the PWM safe |
| Safety.HvSafeArmed | main.py:491-562 | the Armed handler keeps the PWM safe |
| Safety.HvSafeLowPower | main.py:564-593 | the low-power handler keeps the PWM safe |
| Safety.HvLeftOnWhileDisarmed | main.py:596-609 | from power-on: arm, combo to sound off, switch off, combo to sound on; the device rests Disarmed with nothing pending and the PWM on |
| Safety.DisarmedKeepsPwm | main.py:465-489 | once Disarmed with nothing pending, ticks with the switch off never turn the PWM on or off |
| Safety.ArmAtBoot | main.py:443-524 | the first tick at power-on with the switch on and charged: start-up clip, power-up, HV LED, and Armed with the flag consumed |
| Safety.ArmedIdleEntry | main.py:500-562 | entering Armed, charged and idle: the power-up then the HV LED, with the flag consumed and the timeout started now |
| Safety.FireIdle | main.py:523-562 | charged with no pulse before the timeout: only the HV LED, with the flag consumed |
| Safety.SoundOffConfirm | main.py:611-622 | the no-sound confirmation returns to Armed and raises `state_changed` |
| Safety.SoundOnConfirm | main.py:596-609 | the sound-on confirmation returns to Disarmed and consumes `state_changed` |
| Safety.ComboFromArmed | main.py:69-76 | the combo while Armed turns sound off and saves Armed |
| Safety.DisarmSwitch | main.py:121-134 | the wakeup button with the switch off moves to Disarmed and leaves `state_changed` set |
| Safety.ComboWhileDisarming | main.py:69-76 | the combo while the Disarmed entry is pending turns sound on and saves Disarmed |
| DeviceModel.FileName | main.py:42-45 | every clip, the six fixed ones and the entries of `firing_song` and `low_power_song`, names a `.wav` file |
| DeviceModel.FileNameInjective | main.py:42-45 | distinct clips name distinct files, so the six fixed names and the six rotation entries are all different |
| DeviceModel.NextSong | main.py:553-554 | a rotation advances to the next of its three clips and wraps from the last to the first |
| DeviceModel.RotationPeriodThree | main.py:590-591 | a rotation returns to a clip only after three steps |
| DeviceModel.ClipIf | main.py:469-470 | a clip is played at most once and exactly when sound is on, and nothing else is emitted |
| DeviceModel.PwmAfter | main.py:373-386 | the PWM level after a trace is on if its last effect is a power-up and off if it is a power-down |
| Colour.Mask | main.py:267 | `x & 255` is the remainder modulo 256, a byte, and the identity on bytes |
| Colour.Wheel | main.py:164-173 | on 0..255 the colour has byte channels summing to 255, with at least one channel zero |
| Colour.MaskedWheel | main.py:266-267 | the wheel after a mask always gives a valid colour |
| Colour.WheelIsLoop | main.py:164-173 | position 255 is the colour of 0, and each step round the loop moves every channel by at most 3 |
| Colour.WheelInjective | main.py:164-173 | two distinct positions give the same colour exactly when they are the closing pair 0 and 255 |
| LedGroups.InTable | main.py:149-156 | every table entry is an LED number of the 76-LED strip, and no LED is listed twice |
| LedGroups.Covered | main.py:144-156 | every LED of the strip is listed in some group |
| LedGroups.ListedIffOwned | main.py:149-156 | an LED is listed in a group exactly when it is owned by that group |
| LedGroups.SetLeds | main.py:181-182 | writing a list of LED numbers changes exactly the listed LEDs |
| LedGroups.SetGroup | main.py:288-289 | writing a group changes exactly the LEDs that group owns |
| LedGroups.PaintGroups | main.py:265-270 | painting a list of groups gives each LED its group's colour if the group is listed, else keeps its value |
| LedGroups.SetAll | main.py:179-183 | `set_all_leds` gives every LED of the strip the colour |
| Animation.GroupHue | main.py:286 | a group's hue is a byte spread evenly round the wheel |
| Animation.GroupHueIncreasing | main.py:286 | hues increase strictly in table order |
| Animation.ChaseWindow | main.py:278-285 | the chase lights five groups, starting at the counter's group, each the next one round the table |
| Animation.ChaseWindowDistinct | main.py:284-285 | the five groups of a window are distinct |
| Animation.ChaseAdvances | main.py:284-293 | one counter step drops the first group and adds the one after the last |
| Animation.WindowOffset | main.py:285 | the j-th group is j groups after the first, wrapping |
| Animation.ChaseFrame | main.py:280-289 | after the chase an LED is lit exactly when its group is in the window, and lit in its group's wheel colour |
| Animation.RainbowRotates | main.py:263-273 | one rainbow step turns every group's hue one position round the wheel, and 256 steps bring it back |
| Animation.RainbowFrame | main.py:265-270 | every LED takes its group's shifted wheel colour, a valid colour |
| Animation.AnimationCycle | main.py:335-366 | the one-shot states clear `animation_changed` and the others keep it; Startup and Firing run their fill only when the flag is set; Disarmed wipes green (when set) then breathes green over 50, Armed wipes red then breathes red over 20; Error and the sound toggle flash red; low power runs the chase window, the rainbow at phase mod 256, the wave at phase mod 255 or the twinkle of its substate, and nothing without one; the phases stay in range |
| Animation.CycleCounter | main.py:246-325 | the counter a cycle leaves is the restarted counter reduced modulo the last pattern's period plus one, or unchanged when that pattern does not step it |
| Animation.RainbowCycleAdvances | main.py:260-273 | over two rainbow cycles without a state change every group's hue moves one position round the wheel |
| Animation.OneShotOnChange | main.py:338-366 | a one-shot pattern runs exactly when `animation_changed` is set in Startup, Disarmed, Armed or Firing |
| Animation.CounterBounds | main.py:246-352 | a state change restarts the counter; breathing keeps it within its period, 1..50 in Disarmed and 1..20 in Armed |
| Animation.ChaseCycleAdvances | main.py:275-293 | over two chase cycles without a state change the window moves one group along |

## Left out

- Audio: clip playback is one `Play` effect that always completes. The busy-wait and sleep loops around `wp.isplaying()` are not modelled, and neither is the I2S player.
- Sleeps and debouncing: the 50 ms debounce becomes the button levels the callback samples afterwards. The 250 ms gap between shots and the 100 ms loop period are not modelled.
- Clock: every `ticks_ms` read inside one tick is the single `now` input. `ticks_diff` wrap-around is not modelled, so times are plain integers.
- The firing hold loop: how long the pulse button stays pressed is given as the number of passes `held`. The 5 µs pulse width is not modelled.
- Concurrency: the animation thread is modelled as one pass over a snapshot of the globals. Its interleaving with the main loop and the callbacks is not modelled. Callbacks and ticks are atomic steps in any order.
- Control.Update: the transient writes of `Firing` inside the firing loop and of `Error` during the boom clip are not modelled as states. The animation thread could observe them between two writes, but they are overwritten before the handler returns.
- Control.HandleSoundOn and Control.HandleSoundOff require a saved state in `substate`. In the code the only way into a sound pseudo-state is the combo, which saves one.
- Hardware setup: pin, PWM frequency and duty, NeoPixel, status LED, and the pad-drive register write. The PWM is an on/off level in the trace.
- Floating-point colour math is not modelled: `scale_color`, `interpolate_color`, the start-up and firing gradients, breathing's sine, and the wave pattern. The breathing brightness reads the global `brightness`, which is always 0. Animation.RainbowFrame and Animation.ChaseFrame therefore stop before the `low_power_brightness` scaling.
- Animation.AnimationCycle: the one-shot and continuous patterns are named, not rendered. The wipe, start-up fill, firing fill, flash, twinkle and wave buffers are not modelled.
- `twinkle_effect` uses `random.randint` and is only named.
- Logging: the `print` calls have no effect on the globals or the hardware and are not modelled.
- Input sampling: the arm switch, the pulse button and the charge sensor are sampled once per tick. The code reads `buttonArm` again after blocking clips (main.py:453 after the start-up clip, main.py:474 after the disarm clip, main.py:512 after the arm clip). A switch flipped during one of those clips is seen by the model one tick later.
- The `KeyboardInterrupt` handling, the `running` flag and `_thread.exit`.
- `utilities/flash-all.py` is not part of this model.

/** The animation thread's per-cycle choice (main.py:327-366) and the integer
    parts of the low-power patterns it drives: the chase window
    (main.py:275-293) and the rainbow cycle's colours (main.py:260-273). */
module Animation {
  import opened DeviceModel
  import opened Colour
  import opened LedGroups

  /** A pattern call the thread makes in one cycle. */
  datatype Pattern =
    | StartupFill                          // startup_animation, one-shot
    | Wipe(colour: Rgb)                    // wipe_animation, one-shot
    | Breathing(colour: Rgb, period: nat)  // breathing_effect
    | ChaseStep(window: seq<nat>)          // chase_animation
    | RainbowStep(phase: nat)              // rainbow_cycle
    | TwinkleStep                          // twinkle_effect
    | WaveStep(phase: nat)                 // wave_pattern
    | FlashRed                             // flash_all_red
    | FiringFill                           // firing_animation, one-shot

  predicate OneShot(p: Pattern)
  {
    p.StartupFill? || p.Wipe? || p.FiringFill?
  }

  /** The patterns one cycle runs, the `animation_changed` it leaves and the
      shared `loop_counter` it leaves. */
  datatype Frame = Frame(patterns: seq<Pattern>, animationChanged: bool, counter: nat)

  const DimGreen := Rgb(0, 10, 0)
  const DimRed := Rgb(10, 0, 0)

  /** Number of groups lit by the chase. */
  const ChaseLength := 5

  /** The hue `(g * 256 // len(led_groups)) & 255` the chase and twinkle
      patterns give group g: spread evenly round the wheel, in table order. */
  function GroupHue(g: nat): (h: int)
    requires g < GroupCount
    ensures IsByte(h)
    ensures h == g * 256 / GroupCount
  {
    Mask(g * 256 / GroupCount)
  }

  lemma GroupHueIncreasing(g: nat, h: nat)
    requires g < h < GroupCount
    ensures GroupHue(g) < GroupHue(h)
  {
    assert g * 256 + 256 <= h * 256;
  }

  /** The groups lit by `chase_animation` at a counter value: the counter's
      group and the next four, wrapping round the table. */
  function ChaseWindow(counter: nat): (w: seq<nat>)
    ensures |w| == ChaseLength
    ensures w[0] == counter % GroupCount
    ensures forall j | 0 <= j < |w| :: w[j] < GroupCount
    ensures forall j | 0 <= j < |w| - 1 :: w[j + 1] == (w[j] + 1) % GroupCount
  {
    var c := counter % GroupCount;
    seq(ChaseLength, j => (c + j) % GroupCount)
  }

  /** The five groups of a window are distinct. */
  lemma ChaseWindowDistinct(counter: nat, j: nat, k: nat)
    requires j < k < ChaseLength
    ensures ChaseWindow(counter)[j] != ChaseWindow(counter)[k]
  {
    var c := counter % GroupCount;
    assert ChaseWindow(counter)[j] == (c + j) % GroupCount;
    assert ChaseWindow(counter)[k] == (c + k) % GroupCount;
  }

  /** Advancing the counter by one moves the window one group along: the
      next window drops the first group and adds the one after the last. */
  lemma ChaseAdvances(counter: nat)
    ensures ChaseWindow(counter + 1)[..ChaseLength - 1] == ChaseWindow(counter)[1..]
    ensures ChaseWindow(counter + 1)[ChaseLength - 1] == (ChaseWindow(counter)[ChaseLength - 1] + 1) % GroupCount
  {
    var w := ChaseWindow(counter);
    var v := ChaseWindow(counter + 1);
    assert v[0] == w[1];
    forall j | 0 <= j < ChaseLength - 1
      ensures v[j] == w[j + 1]
    {
      if j > 0 {
        assert v[j] == (v[0] + j) % GroupCount by { WindowOffset(counter + 1, j); }
        assert w[j + 1] == (w[1] + j) % GroupCount by { WindowOffset(counter, j + 1); }
      }
    }
  }

  lemma WindowOffset(counter: nat, j: nat)
    requires 1 <= j < ChaseLength
    ensures ChaseWindow(counter)[j] == (ChaseWindow(counter)[0] + j) % GroupCount
  {
  }

  function ChaseColour(g: nat): Rgb
  {
    if g < GroupCount then Wheel(GroupHue(g)) else Black
  }

  /** The buffer `chase_animation` writes: everything dark, then the window's
      groups in their own hues. An LED is lit exactly when its group is in
      the window, and lit in a valid wheel colour. */
  function ChaseFrame(buf: seq<Rgb>, counter: nat): (r: seq<Rgb>)
    requires |buf| == LedCount
    ensures |r| == LedCount
    ensures forall i | 0 <= i < LedCount ::
              r[i] == (if Owner(i) in ChaseWindow(counter) then Wheel(GroupHue(Owner(i))) else Black)
    ensures forall i | 0 <= i < LedCount :: r[i] != Black <==> Owner(i) in ChaseWindow(counter)
  {
    var w := ChaseWindow(counter);
    var r := PaintGroups(SetAll(buf, Black), w, ChaseColour);
    forall i | 0 <= i < LedCount
      ensures Owner(i) in w ==> r[i] == Wheel(GroupHue(Owner(i))) && r[i] != Black
    {
      if Owner(i) in w {
        var h := GroupHue(Owner(i));
        assert Wheel(h).r + Wheel(h).g + Wheel(h).b == 255;
      }
    }
    r
  }

  /** The wheel position `rainbow_cycle` gives group i at a phase:
      `((i * 256 // len(led_groups)) + phase) & 255`. */
  function RainbowHue(g: nat, phase: nat): (h: int)
    requires g < GroupCount
    ensures IsByte(h)
    ensures h == (GroupHue(g) + phase) % 256
  {
    Mask(g * 256 / GroupCount + phase)
  }

  /** The buffer `rainbow_cycle` writes (before its brightness scaling):
      every LED in its group's hue shifted by the phase, a valid colour. */
  function RainbowFrame(buf: seq<Rgb>, phase: nat): (r: seq<Rgb>)
    requires |buf| == LedCount
    ensures |r| == LedCount
    ensures forall i | 0 <= i < LedCount :: r[i] == Wheel(RainbowHue(Owner(i), phase)) && Valid(r[i])
  {
    var gs := AllGroups();
    forall i | 0 <= i < LedCount
      ensures Owner(i) in gs
    {
      Covered(i);
      assert gs[Owner(i)] == Owner(i);
    }
    PaintGroups(buf, gs, (g: nat) => if g < GroupCount then Wheel(RainbowHue(g, phase)) else Black)
  }

  /** Each rainbow step turns every group one position further round the
      wheel, so the rainbow repeats every 256 steps. */
  lemma RainbowRotates(g: nat, phase: nat)
    requires g < GroupCount
    ensures RainbowHue(g, phase + 1) == (RainbowHue(g, phase) + 1) % 256
    ensures RainbowHue(g, phase + 256) == RainbowHue(g, phase)
  {
    ByteStep(GroupHue(g) + phase);
  }

  lemma ByteStep(x: nat)
    ensures (x + 1) % 256 == (x % 256 + 1) % 256
    ensures (x + 256) % 256 == x % 256
  {
    var q, r := x / 256, x % 256;
    assert x + 1 == 256 * q + (r + 1);
    assert x + 256 == 256 * (q + 1) + r;
  }

  /** How far a pattern that steps `loop_counter` lets it run: the modulus it
      reduces the counter by before adding one; 0 for a pattern that leaves
      the counter alone. */
  function CounterPeriod(p: Pattern): nat
  {
    match p
    case Breathing(_, n) => n
    case ChaseStep(_) => GroupCount
    case RainbowStep(_) => 256
    case WaveStep(_) => 255
    case _ => 0
  }

  /** The counter a cycle starts from: restarted by a pending state change. */
  function Restarted(d: Device, counter: nat): nat
  {
    if d.stateChanged then 0 else counter
  }

  /** One pass of the animation loop on a snapshot of the globals and the
      thread's `loop_counter`. A set `stateChanged` restarts the counter.
      Startup, Disarmed, Armed and Firing run their one-shot pattern when
      `animationChanged` is set and clear it; Disarmed and Armed then breathe;
      low power runs its substate's pattern; Error and the sound toggle flash
      red whatever the substate. Each continuous pattern reduces the counter
      modulo its period and steps it. */
  function AnimationCycle(d: Device, counter: nat): (f: Frame)
    ensures f.animationChanged == (d.animationChanged && d.state !in {Startup, Disarmed, Armed, Firing})
    ensures d.state in {Error, SoundOn, SoundOff} ==> f.patterns == [FlashRed]
    ensures d.state == LowPower && d.substate.Chase? ==>
              f.patterns == [ChaseStep(ChaseWindow(Restarted(d, counter)))]
    ensures d.state == LowPower && d.substate !in {Chase, Rainbow, Twinkle, Wave} ==> f.patterns == []
    ensures d.state in {Disarmed, Armed} ==> |f.patterns| > 0 && f.patterns[|f.patterns| - 1].Breathing?
    ensures forall k | 0 <= k < |f.patterns| :: f.patterns[k].RainbowStep? ==> f.patterns[k].phase < 256
    ensures forall k | 0 <= k < |f.patterns| :: f.patterns[k].WaveStep? ==> f.patterns[k].phase < 255
    // the pattern of each state, one-shots first
    ensures d.state == Startup ==> f.patterns == (if d.animationChanged then [StartupFill] else [])
    ensures d.state == Firing ==> f.patterns == (if d.animationChanged then [FiringFill] else [])
    ensures d.state == Disarmed ==>
              f.patterns == (if d.animationChanged then [Wipe(DimGreen)] else []) + [Breathing(DimGreen, 50)]
    ensures d.state == Armed ==>
              f.patterns == (if d.animationChanged then [Wipe(DimRed)] else []) + [Breathing(DimRed, 20)]
    ensures d.state == LowPower && d.substate.Rainbow? ==> f.patterns == [RainbowStep(Restarted(d, counter) % 256)]
    ensures d.state == LowPower && d.substate.Wave? ==> f.patterns == [WaveStep(Restarted(d, counter) % 255)]
    ensures d.state == LowPower && d.substate.Twinkle? ==> f.patterns == [TwinkleStep]
  {
    var c := Restarted(d, counter);
    var ac := d.animationChanged;
    match d.state
    case Startup =>
      Frame(if ac then [StartupFill] else [], false, c)
    case Disarmed =>
      var breathe := Breathing(DimGreen, 50);
      Frame(if ac then [Wipe(DimGreen), breathe] else [breathe], false, c % 50 + 1)
    case Armed =>
      var breathe := Breathing(DimRed, 20);
      Frame(if ac then [Wipe(DimRed), breathe] else [breathe], false, c % 20 + 1)
    case LowPower =>
      (match d.substate
       case Chase => Frame([ChaseStep(ChaseWindow(c))], ac, c % GroupCount + 1)
       case Rainbow => Frame([RainbowStep(c % 256)], ac, c % 256 + 1)
       case Wave => Frame([WaveStep(c % 255)], ac, c % 255 + 1)
       case Twinkle => Frame([TwinkleStep], ac, c)
       case _ => Frame([], ac, c))
    case Error => Frame([FlashRed], ac, c)
    case SoundOn => Frame([FlashRed], ac, c)
    case SoundOff => Frame([FlashRed], ac, c)
    case Firing =>
      Frame(if ac then [FiringFill] else [], false, c)
  }

  /** The counter a cycle leaves is set by its last pattern: one that steps
      the counter reduces it modulo its period and adds one; otherwise the
      (possibly restarted) counter is left as it is. */
  lemma CycleCounter(d: Device, counter: nat)
    ensures var f := AnimationCycle(d, counter);
            var c := Restarted(d, counter);
            f.counter == (if |f.patterns| > 0 && CounterPeriod(f.patterns[|f.patterns| - 1]) > 0
                          then c % CounterPeriod(f.patterns[|f.patterns| - 1]) + 1
                          else c)
  {
    var f := AnimationCycle(d, counter);
    var c := Restarted(d, counter);
    match d.state
    case Disarmed =>
      assert f.patterns[|f.patterns| - 1] == Breathing(DimGreen, 50);
    case Armed =>
      assert f.patterns[|f.patterns| - 1] == Breathing(DimRed, 20);
    case LowPower =>
      if d.substate.Chase? {
        assert f.patterns == [ChaseStep(ChaseWindow(c))];
      } else if d.substate.Rainbow? {
        assert f.patterns == [RainbowStep(c % 256)];
      } else if d.substate.Wave? {
        assert f.patterns == [WaveStep(c % 255)];
      }
    case _ =>
  }

  /** A one-shot pattern runs exactly when `animationChanged` was set and
      the state has one (Startup, Disarmed, Armed, Firing), and that cycle
      clears the flag. */
  lemma OneShotOnChange(d: Device, counter: nat)
    ensures var f := AnimationCycle(d, counter);
            (exists k | 0 <= k < |f.patterns| :: OneShot(f.patterns[k])) <==>
              d.animationChanged && d.state in {Startup, Disarmed, Armed, Firing}
  {
    var f := AnimationCycle(d, counter);
    if d.animationChanged && d.state in {Startup, Disarmed, Armed, Firing} {
      assert OneShot(f.patterns[0]);
    }
  }

  /** A state change restarts the shared counter; breathing keeps it within
      its period. */
  lemma CounterBounds(d: Device, counter: nat)
    ensures d.stateChanged ==> AnimationCycle(d, counter).counter <= 1
    ensures d.state == Disarmed ==> 1 <= AnimationCycle(d, counter).counter <= 50
    ensures d.state == Armed ==> 1 <= AnimationCycle(d, counter).counter <= 20
  {
  }

  /** Over successive cycles in the rainbow with no state change, every
      group's hue moves one position round the wheel per cycle. */
  lemma RainbowCycleAdvances(d: Device, counter: nat, g: nat)
    requires d.state == LowPower && d.substate == Rainbow && !d.stateChanged && g < GroupCount
    ensures var f := AnimationCycle(d, counter);
            var h := AnimationCycle(d, f.counter);
            RainbowHue(g, h.patterns[0].phase) == (RainbowHue(g, f.patterns[0].phase) + 1) % 256
  {
    var p := counter % 256;
    assert (p + 1) % 256 == 0 || (p + 1) % 256 == p + 1;
    RainbowRotates(g, p);
    if p == 255 {
      RainbowRotates(g, 0);
      assert RainbowHue(g, 256) == RainbowHue(g, 0);
    }
  }

  /** Over successive cycles in the chase with no state change, the window
      advances one group per cycle. */
  lemma ChaseCycleAdvances(d: Device, counter: nat)
    requires d.state == LowPower && d.substate == Chase && !d.stateChanged
    ensures var f := AnimationCycle(d, counter);
            var g := AnimationCycle(d, f.counter);
            && f.patterns[0].window[1..] == g.patterns[0].window[..ChaseLength - 1]
  {
    var c := counter % GroupCount;
    assert ChaseWindow(c + 1) == ChaseWindow(counter + 1) by {
      assert (c + 1) % GroupCount == (counter + 1) % GroupCount;
    }
    ChaseAdvances(counter);
  }
}

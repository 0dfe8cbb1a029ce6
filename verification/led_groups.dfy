/** The LED strip's logical groups (main.py:144-156, 179-183): 76 LEDs,
    numbered from 1 in the table, driven as 28 groups that each take one
    colour. */
module LedGroups {
  import opened Colour

  /** `n`, the strip length. */
  const LedCount := 76

  /** `led_groups`: the 1-based LED numbers of each group. */
  const Groups: seq<seq<nat>> := [
    [28, 67, 29, 66], [27, 65], [26, 64], [25, 61, 30, 68],
    [24, 62, 31, 69], [23, 63, 32, 70], [22, 60], [21, 59, 33, 71],
    [20, 58, 34, 72], [19, 57, 35, 73], [18, 56], [17, 53, 36, 74],
    [16, 54, 37, 75], [15, 55, 38, 76], [14, 52], [13, 51],
    [12, 50], [11, 49], [10, 48], [9, 47], [8, 46], [7, 45],
    [6, 44], [5, 43], [4, 42], [3, 41], [2, 40], [1, 39]
  ]

  const GroupCount := |Groups|

  /* The inverse of the table, written out independently: for buffer index i
     (LED number i + 1), the group holding it and its position there. Each is
     kept in quarters of 19 so that the verifier can index them. */
  const OwnerQ0: seq<nat> := [27, 26, 25, 24, 23, 22, 21, 20, 19, 18, 17, 16, 15, 14, 13, 12, 11, 10, 9]
  const OwnerQ1: seq<nat> := [8, 7, 6, 5, 4, 3, 2, 1, 0, 0, 3, 4, 5, 7, 8, 9, 11, 12, 13]
  const OwnerQ2: seq<nat> := [27, 26, 25, 24, 23, 22, 21, 20, 19, 18, 17, 16, 15, 14, 11, 12, 13, 10, 9]
  const OwnerQ3: seq<nat> := [8, 7, 6, 3, 4, 5, 2, 1, 0, 0, 3, 4, 5, 7, 8, 9, 11, 12, 13]
  const SlotQ0: seq<nat> := [0, 0, 0, 0, 0, 0, 0, 0, 0, 0, 0, 0, 0, 0, 0, 0, 0, 0, 0]
  const SlotQ1: seq<nat> := [0, 0, 0, 0, 0, 0, 0, 0, 0, 2, 2, 2, 2, 2, 2, 2, 2, 2, 2]
  const SlotQ2: seq<nat> := [1, 1, 1, 1, 1, 1, 1, 1, 1, 1, 1, 1, 1, 1, 1, 1, 1, 1, 1]
  const SlotQ3: seq<nat> := [1, 1, 1, 1, 1, 1, 1, 1, 3, 1, 3, 3, 3, 3, 3, 3, 3, 3, 3]

  /** The group that drives buffer index i. */
  function Owner(i: nat): nat
    requires i < LedCount
  {
    if i < 19 then OwnerQ0[i] else if i < 38 then OwnerQ1[i - 19]
    else if i < 57 then OwnerQ2[i - 38] else OwnerQ3[i - 57]
  }

  /** The position of LED i + 1 within its group. */
  function Slot(i: nat): nat
    requires i < LedCount
  {
    if i < 19 then SlotQ0[i] else if i < 38 then SlotQ1[i - 19]
    else if i < 57 then SlotQ2[i - 38] else SlotQ3[i - 57]
  }

  /** Every table entry is a valid LED number, and the inverse table maps it
      back to where it sits: no LED appears twice, in one group or in two. */
  lemma InTable(g: nat, j: nat)
    requires g < GroupCount && j < |Groups[g]|
    ensures 1 <= Groups[g][j] <= LedCount
    ensures Owner(Groups[g][j] - 1) == g && Slot(Groups[g][j] - 1) == j
  {
    if g < 7 { InTable0(g, j); }
    else if g < 14 { InTable7(g, j); }
    else if g < 21 { InTable14(g, j); }
    else { InTable21(g, j); }
  }

  // InTable0 .. InTable21 and Covered0 .. Covered67 cover the table a
  // range at a time. Each empty branch is one concrete entry, which the
  // verifier then checks by evaluating the lookups; splitting the range keeps
  // every proof obligation small.

  lemma InTable0(g: nat, j: nat)
    requires g < 7 && j < |Groups[g]|
    ensures 1 <= Groups[g][j] <= LedCount
    ensures Owner(Groups[g][j] - 1) == g && Slot(Groups[g][j] - 1) == j
  {
    if g == 0 { if j == 0 {} else if j == 1 {} else if j == 2 {} else {} }
    else if g == 1 { if j == 0 {} else {} }
    else if g == 2 { if j == 0 {} else {} }
    else if g == 3 { if j == 0 {} else if j == 1 {} else if j == 2 {} else {} }
    else if g == 4 { if j == 0 {} else if j == 1 {} else if j == 2 {} else {} }
    else if g == 5 { if j == 0 {} else if j == 1 {} else if j == 2 {} else {} }
    else { if j == 0 {} else {} }
  }

  lemma InTable7(g: nat, j: nat)
    requires 7 <= g < 14 && j < |Groups[g]|
    ensures 1 <= Groups[g][j] <= LedCount
    ensures Owner(Groups[g][j] - 1) == g && Slot(Groups[g][j] - 1) == j
  {
    if g == 7 { if j == 0 {} else if j == 1 {} else if j == 2 {} else {} }
    else if g == 8 { if j == 0 {} else if j == 1 {} else if j == 2 {} else {} }
    else if g == 9 { if j == 0 {} else if j == 1 {} else if j == 2 {} else {} }
    else if g == 10 { if j == 0 {} else {} }
    else if g == 11 { if j == 0 {} else if j == 1 {} else if j == 2 {} else {} }
    else if g == 12 { if j == 0 {} else if j == 1 {} else if j == 2 {} else {} }
    else { if j == 0 {} else if j == 1 {} else if j == 2 {} else {} }
  }

  lemma InTable14(g: nat, j: nat)
    requires 14 <= g < 21 && j < |Groups[g]|
    ensures 1 <= Groups[g][j] <= LedCount
    ensures Owner(Groups[g][j] - 1) == g && Slot(Groups[g][j] - 1) == j
  {
    if g == 14 { if j == 0 {} else {} }
    else if g == 15 { if j == 0 {} else {} }
    else if g == 16 { if j == 0 {} else {} }
    else if g == 17 { if j == 0 {} else {} }
    else if g == 18 { if j == 0 {} else {} }
    else if g == 19 { if j == 0 {} else {} }
    else { if j == 0 {} else {} }
  }

  lemma InTable21(g: nat, j: nat)
    requires 21 <= g < GroupCount && j < |Groups[g]|
    ensures 1 <= Groups[g][j] <= LedCount
    ensures Owner(Groups[g][j] - 1) == g && Slot(Groups[g][j] - 1) == j
  {
    if g == 21 { if j == 0 {} else {} }
    else if g == 22 { if j == 0 {} else {} }
    else if g == 23 { if j == 0 {} else {} }
    else if g == 24 { if j == 0 {} else {} }
    else if g == 25 { if j == 0 {} else {} }
    else if g == 26 { if j == 0 {} else {} }
    else { if j == 0 {} else {} }
  }

  lemma Covered0(i: nat)
    requires 0 <= i < 10
    ensures Owner(i) < |Groups| && Slot(i) < |Groups[Owner(i)]| && Groups[Owner(i)][Slot(i)] == i + 1
  {
    if i == 0 {} else if i == 1 {} else if i == 2 {} else if i == 3 {} else if i == 4 {} else if i == 5 {} else if i == 6 {} else if i == 7 {} else if i == 8 {} else {}
  }

  lemma Covered10(i: nat)
    requires 10 <= i < 19
    ensures Owner(i) < |Groups| && Slot(i) < |Groups[Owner(i)]| && Groups[Owner(i)][Slot(i)] == i + 1
  {
    if i == 10 {} else if i == 11 {} else if i == 12 {} else if i == 13 {} else if i == 14 {} else if i == 15 {} else if i == 16 {} else if i == 17 {} else {}
  }

  lemma Covered19(i: nat)
    requires 19 <= i < 29
    ensures Owner(i) < |Groups| && Slot(i) < |Groups[Owner(i)]| && Groups[Owner(i)][Slot(i)] == i + 1
  {
    if i == 19 {} else if i == 20 {} else if i == 21 {} else if i == 22 {} else if i == 23 {} else if i == 24 {} else if i == 25 {} else if i == 26 {} else if i == 27 {} else {}
  }

  lemma Covered29(i: nat)
    requires 29 <= i < 38
    ensures Owner(i) < |Groups| && Slot(i) < |Groups[Owner(i)]| && Groups[Owner(i)][Slot(i)] == i + 1
  {
    if i == 29 {} else if i == 30 {} else if i == 31 {} else if i == 32 {} else if i == 33 {} else if i == 34 {} else if i == 35 {} else if i == 36 {} else {}
  }

  lemma Covered38(i: nat)
    requires 38 <= i < 48
    ensures Owner(i) < |Groups| && Slot(i) < |Groups[Owner(i)]| && Groups[Owner(i)][Slot(i)] == i + 1
  {
    if i == 38 {} else if i == 39 {} else if i == 40 {} else if i == 41 {} else if i == 42 {} else if i == 43 {} else if i == 44 {} else if i == 45 {} else if i == 46 {} else {}
  }

  lemma Covered48(i: nat)
    requires 48 <= i < 57
    ensures Owner(i) < |Groups| && Slot(i) < |Groups[Owner(i)]| && Groups[Owner(i)][Slot(i)] == i + 1
  {
    if i == 48 {} else if i == 49 {} else if i == 50 {} else if i == 51 {} else if i == 52 {} else if i == 53 {} else if i == 54 {} else if i == 55 {} else {}
  }

  lemma Covered57(i: nat)
    requires 57 <= i < 67
    ensures Owner(i) < |Groups| && Slot(i) < |Groups[Owner(i)]| && Groups[Owner(i)][Slot(i)] == i + 1
  {
    if i == 57 {} else if i == 58 {} else if i == 59 {} else if i == 60 {} else if i == 61 {} else if i == 62 {} else if i == 63 {} else if i == 64 {} else if i == 65 {} else {}
  }

  lemma Covered67(i: nat)
    requires 67 <= i < 76
    ensures Owner(i) < |Groups| && Slot(i) < |Groups[Owner(i)]| && Groups[Owner(i)][Slot(i)] == i + 1
  {
    if i == 67 {} else if i == 68 {} else if i == 69 {} else if i == 70 {} else if i == 71 {} else if i == 72 {} else if i == 73 {} else if i == 74 {} else {}
  }

  /** Every LED of the strip belongs to some group. */
  lemma Covered(i: nat)
    requires i < LedCount
    ensures Owner(i) < GroupCount && Slot(i) < |Groups[Owner(i)]| && Groups[Owner(i)][Slot(i)] == i + 1
  {
    if i < 10 { Covered0(i); }
    else if i < 19 { Covered10(i); }
    else if i < 29 { Covered19(i); }
    else if i < 38 { Covered29(i); }
    else if i < 48 { Covered38(i); }
    else if i < 57 { Covered48(i); }
    else if i < 67 { Covered57(i); }
    else { Covered67(i); }
  }

  /** LED number i + 1 is listed in group g exactly when the inverse table
      says g owns it. */
  lemma ListedIffOwned(g: nat)
    requires g < GroupCount
    ensures forall i | 0 <= i < LedCount :: (i + 1 in Groups[g]) <==> Owner(i) == g
    ensures forall j | 0 <= j < |Groups[g]| :: 1 <= Groups[g][j] <= LedCount
  {
    forall i | 0 <= i < LedCount
      ensures (i + 1 in Groups[g]) <==> Owner(i) == g
    {
      Covered(i);
      if i + 1 in Groups[g] {
        var j :| 0 <= j < |Groups[g]| && Groups[g][j] == i + 1;
        InTable(g, j);
      }
    }
    forall j | 0 <= j < |Groups[g]|
      ensures 1 <= Groups[g][j] <= LedCount
    {
      InTable(g, j);
    }
  }

  /** `for led in leds: np[led - 1] = colour`. */
  function SetLeds(buf: seq<Rgb>, leds: seq<nat>, c: Rgb): (r: seq<Rgb>)
    requires forall k | 0 <= k < |leds| :: 1 <= leds[k] <= |buf|
    ensures |r| == |buf|
    ensures forall i | 0 <= i < |buf| :: r[i] == (if i + 1 in leds then c else buf[i])
    decreases |leds|
  {
    if |leds| == 0 then buf
    else
      var rest := SetLeds(buf[leds[0] - 1 := c], leds[1..], c);
      assert forall i | 0 <= i < |buf| :: rest[i] == (if i + 1 in leds then c else buf[i]) by {
        assert forall x :: x in leds <==> x == leds[0] || x in leds[1..];
      }
      rest
  }

  /** Write one colour to every LED of group g: exactly the LEDs the group
      owns change. */
  function SetGroup(buf: seq<Rgb>, g: nat, c: Rgb): (r: seq<Rgb>)
    requires |buf| == LedCount && g < GroupCount
    ensures |r| == LedCount
    ensures forall i | 0 <= i < LedCount :: r[i] == (if Owner(i) == g then c else buf[i])
  {
    ListedIffOwned(g);
    SetLeds(buf, Groups[g], c)
  }

  /** Paint the groups `gs` in order, group g in `colourOf(g)`: an LED ends in
      its own group's colour if that group is listed, else keeps its value. */
  function PaintGroups(buf: seq<Rgb>, gs: seq<nat>, colourOf: nat -> Rgb): (r: seq<Rgb>)
    requires |buf| == LedCount
    requires forall k | 0 <= k < |gs| :: gs[k] < GroupCount
    ensures |r| == LedCount
    ensures forall i | 0 <= i < LedCount :: r[i] == (if Owner(i) in gs then colourOf(Owner(i)) else buf[i])
    decreases |gs|
  {
    if |gs| == 0 then buf
    else
      var r := PaintGroups(SetGroup(buf, gs[0], colourOf(gs[0])), gs[1..], colourOf);
      assert forall i | 0 <= i < LedCount :: (Owner(i) in gs) <==> (Owner(i) == gs[0] || Owner(i) in gs[1..]);
      r
  }

  /** Every group index, in table order. */
  function AllGroups(): (gs: seq<nat>)
    ensures |gs| == GroupCount
    ensures forall k | 0 <= k < |gs| :: gs[k] == k
  {
    seq(GroupCount, k => k)
  }

  /** `set_all_leds(colour)`: because the groups cover the strip, every LED
      takes the colour, whatever the buffer held. */
  function SetAll(buf: seq<Rgb>, c: Rgb): (r: seq<Rgb>)
    requires |buf| == LedCount
    ensures |r| == LedCount
    ensures forall i | 0 <= i < LedCount :: r[i] == c
  {
    var gs := AllGroups();
    forall i | 0 <= i < LedCount
      ensures Owner(i) in gs
    {
      Covered(i);
      assert gs[Owner(i)] == Owner(i);
    }
    PaintGroups(buf, gs, _ => c)
  }
}

/** Integer colour helpers of the LED animations (main.py:164-173): the
    rainbow colour wheel and the `& 255` its callers apply first. */
module Colour {

  datatype Rgb = Rgb(r: int, g: int, b: int)

  const Black := Rgb(0, 0, 0)

  predicate IsByte(x: int)
  {
    0 <= x <= 255
  }

  /** Every channel fits in a byte. */
  predicate Valid(c: Rgb)
  {
    IsByte(c.r) && IsByte(c.g) && IsByte(c.b)
  }

  /** `x & 255`. For every integer, including negative ones under Python's
      two's-complement `&`, this is the remainder of x modulo 256. */
  function Mask(x: int): (m: int)
    ensures IsByte(m)
    ensures (x - m) % 256 == 0
    ensures IsByte(x) ==> m == x
  {
    x % 256
  }

  /** `wheel(pos)`: three 85-step ramps, red up/green down, then blue up/red
      down, then green up/blue down. */
  function Wheel(pos: int): (c: Rgb)
    ensures IsByte(pos) ==> Valid(c) && c.r + c.g + c.b == 255
    ensures IsByte(pos) ==> c.r == 0 || c.g == 0 || c.b == 0
  {
    if pos < 85 then Rgb(pos * 3, 255 - pos * 3, 0)
    else if pos < 170 then
      var p := pos - 85;
      Rgb(255 - p * 3, 0, p * 3)
    else
      var p := pos - 170;
      Rgb(0, p * 3, 255 - p * 3)
  }

  /** Every masked call, whatever the integer, lands in the wheel's domain. */
  lemma MaskedWheel(x: int)
    ensures Valid(Wheel(Mask(x))) && Wheel(Mask(x)).r + Wheel(Mask(x)).g + Wheel(Mask(x)).b == 255
  {
  }

  function Dist(a: int, b: int): nat
  {
    if a < b then b - a else a - b
  }

  /** The wheel is a closed loop: position 255 is the same colour as 0, and
      one step round the loop (255 wrapping to 0) moves each channel by at
      most 3. */
  lemma WheelIsLoop(pos: int)
    requires IsByte(pos)
    ensures Wheel(255) == Wheel(0)
    ensures var a := Wheel(pos);
            var b := Wheel((pos + 1) % 256);
            Dist(a.r, b.r) <= 3 && Dist(a.g, b.g) <= 3 && Dist(a.b, b.b) <= 3
  {
  }

  /** Two distinct positions share a colour exactly at that closing
      point. */
  lemma WheelInjective(p: int, q: int)
    requires IsByte(p) && IsByte(q) && p < q
    ensures Wheel(p) == Wheel(q) <==> p == 0 && q == 255
  {
  }
}

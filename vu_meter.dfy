/** The VU meter's arithmetic: how many segments a bar has, how many are lit
    for a level, their colours, and when the scale labels are drawn. The
    measured size of the element is an input. */
module VUMeter {

  datatype Orientation = Vertical | Horizontal

  /** At least 8 segments for a vertical bar, 12 for a horizontal one, and
      one per 4 pixels of length beyond that. */
  function SegmentCount(orientation: Orientation, width: nat, height: nat): (count: nat)
    ensures orientation == Vertical ==> count >= 8 && count >= height / 4
    ensures orientation == Horizontal ==> count >= 12 && count >= width / 4
    ensures orientation == Vertical ==> count == 8 || count == height / 4
    ensures orientation == Horizontal ==> count == 12 || count == width / 4
  {
    if orientation == Vertical then
      (if height / 4 > 8 then height / 4 else 8)
    else
      (if width / 4 > 12 then width / 4 else 12)
  }

  /** `Math.max(0, Math.min(1, level))`. */
  function Clamp(level: real): (c: real)
    ensures 0.0 <= c <= 1.0
    ensures 0.0 <= level <= 1.0 ==> c == level
    ensures level < 0.0 ==> c == 0.0
    ensures level > 1.0 ==> c == 1.0
  {
    if level < 0.0 then 0.0 else if level > 1.0 then 1.0 else level
  }

  /** `Math.ceil`: the least integer not below `x`. */
  function Ceil(x: real): (n: int)
    ensures n as real >= x > n as real - 1.0
  {
    -((-x).Floor)
  }

  /** The least integer not below `x` is the only one in that window. */
  lemma CeilUnique(x: real, m: int)
    requires m as real >= x > m as real - 1.0
    ensures Ceil(x) == m
  {
  }

  /** `Math.ceil(clampedLevel * segmentCount)`. */
  function ActiveSegments(level: real, count: nat): int
  {
    Ceil(Clamp(level) * count as real)
  }

  /** The lit count lies in [0, count]; it is 0 exactly for a level of 0 or
      less, and all of them for a level of 1 or more. */
  lemma ActiveSegmentsRange(level: real, count: nat)
    requires count >= 1
    ensures 0 <= ActiveSegments(level, count) <= count
    ensures ActiveSegments(level, count) == 0 <==> level <= 0.0
    ensures level >= 1.0 ==> ActiveSegments(level, count) == count
  {
    var x := Clamp(level) * count as real;
    assert 0.0 <= x <= count as real;
    if level <= 0.0 {
      CeilUnique(x, 0);
    }
    if level >= 1.0 {
      CeilUnique(x, count);
    }
  }

  /** A louder level never lights fewer segments. */
  lemma ActiveSegmentsMonotone(a: real, b: real, count: nat)
    requires a <= b
    ensures ActiveSegments(a, count) <= ActiveSegments(b, count)
  {
    assert Clamp(a) * count as real <= Clamp(b) * count as real;
  }

  datatype SegmentColor = Green | Yellow | Red | Unlit

  /** `getSegmentColor`: red above 90% of the bar, yellow above 75%, green
      below. */
  function ColorFor(index: nat, count: nat): SegmentColor
    requires count >= 1
  {
    var ratio := (index + 1) as real / count as real;
    if ratio > 0.9 then Red else if ratio > 0.75 then Yellow else Green
  }

  function Severity(c: SegmentColor): nat
  {
    match c
    case Unlit => 0
    case Green => 1
    case Yellow => 2
    case Red => 3
  }

  /** Colours never get milder towards the top of the bar. */
  lemma ColorMonotone(i: nat, j: nat, count: nat)
    requires count >= 1 && i <= j
    ensures Severity(ColorFor(i, count)) <= Severity(ColorFor(j, count))
    ensures ColorFor(i, count) != Unlit
  {
    assert (i + 1) as real / count as real <= (j + 1) as real / count as real;
  }

  /** The bar's segments from the bottom (or left): the first `active` lit in
      their colour, the rest unlit. */
  function Segments(level: real, count: nat): (segs: seq<SegmentColor>)
    requires count >= 1
  {
    var active := ActiveSegments(level, count);
    seq(count, i requires 0 <= i < count => if i < active then ColorFor(i, count) else Unlit)
  }

  /** The lit segments form a prefix of length `ActiveSegments`. */
  lemma SegmentsPrefix(level: real, count: nat)
    requires count >= 1
    ensures |Segments(level, count)| == count
    ensures forall i :: 0 <= i < count ==>
              (Segments(level, count)[i] != Unlit <==> i < ActiveSegments(level, count))
  {
    forall i | 0 <= i < count
      ensures Segments(level, count)[i] != Unlit <==> i < ActiveSegments(level, count)
    {
      ColorMonotone(i, i, count);
    }
  }

  /** A full bar tops out red: its last segment is above 90%. */
  lemma FullBarEndsRed(count: nat)
    requires count >= 1
    ensures Segments(1.0, count)[count - 1] == Red
  {
    ActiveSegmentsRange(1.0, count);
    assert (count - 1 + 1) as real / count as real == 1.0;
  }

  /** The scale labels: for a horizontal meter when it is taller than 32
      pixels, for a vertical one when it is wider than 48. */
  function ShowScaleLabels(orientation: Orientation, width: nat, height: nat): bool
  {
    if orientation == Horizontal then height > 32 else width > 48
  }

  /** The "dB" caption: only on a vertical meter that shows its labels and is
      taller than 60 pixels. */
  function ShowDbCaption(orientation: Orientation, width: nat, height: nat): bool
  {
    orientation == Vertical && ShowScaleLabels(orientation, width, height) && height > 60
  }

  lemma LabelRule(orientation: Orientation, width: nat, height: nat)
    ensures ShowScaleLabels(orientation, width, height) <==>
              (orientation == Horizontal && height > 32) || (orientation == Vertical && width > 48)
    ensures ShowDbCaption(orientation, width, height) ==> ShowScaleLabels(orientation, width, height)
    ensures ShowDbCaption(orientation, width, height) <==> orientation == Vertical && width > 48 && height > 60
  {
  }
}

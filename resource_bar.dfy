/** The CPU/memory usage indicators: a linear bar and a circle that clamp a
    usage value to a percentage and pick a colour by threshold. Arithmetic
    is over the reals; the floating-point rounding of the page is not part
    of the model. */
module ResourceBar {

  const ErrorColor: string := "#ef4444"
  const WarningColor: string := "#f59e0b"
  const CpuColor: string := "#06b6d4"
  const MemoryColor: string := "#8b5cf6"
  const PrimaryColor: string := "#6366f1"

  function Min(a: real, b: real): real {
    if a <= b then a else b
  }

  /** `max > 0 ? Math.min((value / max) * 100, 100) : 0` */
  function Percentage(value: real, max: real): (p: real)
    ensures max <= 0.0 ==> p == 0.0
    ensures p <= 100.0
  {
    if max > 0.0 then Min(value / max * 100.0, 100.0) else 0.0
  }

  /** Dividing by a positive maximum keeps the side of zero and of one. */
  lemma RatioBounds(value: real, max: real)
    requires max > 0.0
    ensures value >= 0.0 ==> value / max >= 0.0
    ensures value < 0.0 ==> value / max < 0.0
    ensures value <= max ==> value / max <= 1.0
    ensures value >= max ==> value / max >= 1.0
  {
    assert value == (value / max) * max;
  }

  /** Within range the percentage is the exact share of the maximum; at or
      above the maximum it is full; a non-negative value never shows below
      zero. */
  lemma PercentageInRange(value: real, max: real)
    requires max > 0.0
    ensures value >= 0.0 ==> Percentage(value, max) >= 0.0
    ensures value <= max ==> Percentage(value, max) == value / max * 100.0
    ensures value >= max ==> Percentage(value, max) == 100.0
  {
    RatioBounds(value, max);
  }

  /** The clamp is only from above: a negative value shows a negative
      percentage. */
  lemma NegativeValueNotClamped(value: real, max: real)
    requires max > 0.0 && value < 0.0
    ensures Percentage(value, max) < 0.0
  {
    RatioBounds(value, max);
  }

  /** A larger value never shows a smaller percentage. */
  lemma PercentageMonotone(v1: real, v2: real, max: real)
    requires v1 <= v2
    ensures Percentage(v1, max) <= Percentage(v2, max)
  {
    if max > 0.0 {
      assert v1 / max <= v2 / max by {
        assert v2 / max - v1 / max == (v2 - v1) / max;
      }
    }
  }

  predicate StartsWithHash(color: string) {
    |color| > 0 && color[0] == '#'
  }

  /** The colour once the thresholds let the named colour through. */
  function NamedColor(color: string): (c: string)
    ensures c in {CpuColor, MemoryColor, PrimaryColor}
  {
    if color == "cpu" then CpuColor else if color == "memory" then MemoryColor else PrimaryColor
  }

  /** `ResourceCircle`'s `getColor`. */
  function CircleColor(color: string, percentage: real): (c: string)
    ensures percentage > 90.0 ==> c == ErrorColor
    ensures 70.0 < percentage <= 90.0 ==> c == WarningColor
    ensures percentage <= 70.0 ==> c == NamedColor(color)
  {
    if percentage > 90.0 then ErrorColor
    else if percentage > 70.0 then WarningColor
    else NamedColor(color)
  }

  /** `ResourceBar`'s `getColor`: a literal colour wins over the thresholds. */
  function BarColor(color: string, percentage: real): (c: string)
    ensures StartsWithHash(color) ==> c == color
    ensures !StartsWithHash(color) ==> c == CircleColor(color, percentage)
  {
    if StartsWithHash(color) then color else CircleColor(color, percentage)
  }

  /** How alarming a colour is: error above warning above the rest. */
  function Alarm(c: string): nat {
    if c == ErrorColor then 2 else if c == WarningColor then 1 else 0
  }

  /** Rising usage never makes the circle's colour less alarming. */
  lemma CircleAlarmMonotone(color: string, p1: real, p2: real)
    requires p1 <= p2
    ensures Alarm(CircleColor(color, p1)) <= Alarm(CircleColor(color, p2))
  {
  }

  /** The circle never passes a literal colour through: it always shows one
      of the five theme colours, even for a '#' colour. */
  lemma CircleUsesThemeColors(color: string, percentage: real)
    ensures CircleColor(color, percentage) in {ErrorColor, WarningColor, CpuColor, MemoryColor, PrimaryColor}
  {
  }

  /** `size === 'small' ? 4 : size === 'large' ? 10 : 6` */
  function BarHeight(size: string): (h: int)
    ensures size == "small" ==> h == 4
    ensures size == "large" ==> h == 10
    ensures size != "small" && size != "large" ==> h == 6
  {
    if size == "small" then 4 else if size == "large" then 10 else 6
  }

  /** What `ResourceBar` renders from its props. */
  datatype Bar = Bar(percentage: real, color: string, height: int)

  function RenderBar(value: real, max: real, color: string, size: string): (b: Bar)
    ensures b.percentage == Percentage(value, max) && b.height == BarHeight(size)
    ensures b.color == BarColor(color, b.percentage)
    ensures max <= 0.0 && !StartsWithHash(color) ==> b.color == NamedColor(color)
  {
    var p := Percentage(value, max);
    Bar(p, BarColor(color, p), BarHeight(size))
  }
}

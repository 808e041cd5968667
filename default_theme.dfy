/**
 * The numeric part of the default theme: the three spacing scales, the
 * duration, z-index and breakpoint tables, and the media-query predicates
 * that `breakpoints.up`, `down` and `between` build.
 *
 * Lengths are exact reals counted in pixels (the scales take any JavaScript
 * number); viewport widths are whole pixels.
 */
module Theme {
  import opened Wrappers

  // ---------------------------------------------------------------- scales

  /** `space(n)`: n units of 16px. */
  function Space(n: real): (s: real)
    ensures s / 16.0 == n
    ensures n > 0.0 ==> s > 0.0
  {
    n * 16.0
  }

  /** `gap(n)`: n units of 48px. */
  function Gap(n: real): (g: real)
    ensures g / 48.0 == n
    ensures n > 0.0 ==> g > 0.0
  {
    n * 48.0
  }

  /** `block(n)`: n units of 96px. */
  function Block(n: real): (b: real)
    ensures b / 96.0 == n
    ensures n > 0.0 ==> b > 0.0
  {
    n * 96.0
  }

  lemma UnitValues()
    ensures Space(1.0) == 16.0 && Gap(1.0) == 48.0 && Block(1.0) == 96.0
    ensures Space(2.0) == 32.0
  {
  }

  /** Each scale is additive and so linear in its factor. */
  lemma ScalesAreLinear(a: real, b: real)
    ensures Space(a + b) == Space(a) + Space(b)
    ensures Gap(a + b) == Gap(a) + Gap(b)
    ensures Block(a + b) == Block(a) + Block(b)
  {
  }

  /** The scales are one unit apart in fixed ratios: a gap is three spaces, a block two gaps. */
  lemma ScaleRatios(n: real)
    ensures Gap(n) == 3.0 * Space(n)
    ensures Block(n) == 2.0 * Gap(n)
  {
  }

  /** For positive factors, space is the smallest scale and block the largest, and each grows with n. */
  lemma ScalesOrdered(m: real, n: real)
    requires 0.0 < m < n
    ensures Space(n) < Gap(n) < Block(n)
    ensures Space(m) < Space(n) && Gap(m) < Gap(n) && Block(m) < Block(n)
  {
  }

  // ---------------------------------------------------------------- tables

  datatype Duration = Short | StandardDuration | Long

  /** `durations`, in milliseconds. */
  function DurationMs(d: Duration): (ms: nat)
    ensures 100 <= ms <= 500
  {
    match d
    case Short => 100
    case StandardDuration => 250
    case Long => 500
  }

  lemma DurationsOrdered()
    ensures DurationMs(Short) < DurationMs(StandardDuration) < DurationMs(Long)
  {
  }

  datatype Layer = AppBar | Drawer | Modal | Notification | Tooltip

  /** Position of a layer in the declared stacking order, lowest first. */
  function Rank(l: Layer): nat {
    match l
    case AppBar => 0
    case Drawer => 1
    case Modal => 2
    case Notification => 3
    case Tooltip => 4
  }

  /** `zIndex`: 1100 for the lowest layer, then one step of 100 per layer. */
  function ZIndex(l: Layer): (z: int)
    ensures z == 1100 + 100 * Rank(l)
  {
    match l
    case AppBar => 1100
    case Drawer => 1200
    case Modal => 1300
    case Notification => 1400
    case Tooltip => 1500
  }

  /** A layer declared later always stacks above one declared earlier. */
  lemma ZIndexStrictlyIncreasing(a: Layer, b: Layer)
    ensures Rank(a) < Rank(b) <==> ZIndex(a) < ZIndex(b)
  {
  }

  // ----------------------------------------------------------- breakpoints

  const Mobile: string := "375px"
  const Tablet: string := "768px"
  const Desktop: string := "1024px"
  /** As written in the theme: the unit is `p`, not `px`. */
  const DesktopLarge: string := "1440p"
  /** The value `DesktopLarge` evidently means. */
  const DesktopLargeIntended: string := "1440px"

  predicate IsDigit(c: char) { '0' <= c <= '9' }

  predicate AllDigits(s: string) {
    forall i :: 0 <= i < |s| ==> IsDigit(s[i])
  }

  /** The number a string of decimal digits denotes. */
  function DigitsValue(s: string): nat
    requires AllDigits(s)
    decreases |s|
  {
    if s == [] then 0
    else 10 * DigitsValue(s[..|s| - 1]) + (s[|s| - 1] as int - '0' as int)
  }

  /** Reads a CSS length `<digits>px` as its whole number of pixels; anything else has none. */
  function ParsePx(s: string): (r: Option<nat>)
    ensures r.Some? <==> |s| > 2 && s[|s| - 2..] == "px" && AllDigits(s[..|s| - 2])
  {
    if |s| > 2 && s[|s| - 2..] == "px" && AllDigits(s[..|s| - 2])
    then Some(DigitsValue(s[..|s| - 2]))
    else None
  }

  function DigitChar(d: nat): char
    requires d < 10
  {
    ('0' as int + d) as char
  }

  /** Decimal digits of n, no leading zeros. */
  function DecimalText(n: nat): (s: string)
    ensures |s| > 0 && AllDigits(s)
    decreases n
  {
    if n < 10 then [DigitChar(n)] else DecimalText(n / 10) + [DigitChar(n % 10)]
  }

  /** A whole number of pixels written as a CSS length. */
  function PxText(n: nat): string {
    DecimalText(n) + "px"
  }

  lemma {:induction false} DigitsValueOfDecimalText(n: nat)
    ensures DigitsValue(DecimalText(n)) == n
    decreases n
  {
    var s := DecimalText(n);
    if n >= 10 {
      DigitsValueOfDecimalText(n / 10);
      assert s[..|s| - 1] == DecimalText(n / 10);
    }
  }

  /** Writing pixels as `<digits>px` and reading them back loses nothing. */
  lemma ParsePxOfPxText(n: nat)
    ensures ParsePx(PxText(n)) == Some(n)
  {
    var s := PxText(n);
    assert s[..|s| - 2] == DecimalText(n);
    assert s[|s| - 2..] == "px";
    DigitsValueOfDecimalText(n);
  }

  /** A digit string without a leading zero is the decimal text of its value. */
  lemma {:induction false} DecimalTextOfDigitsValue(t: string)
    requires t != [] && AllDigits(t) && (|t| == 1 || t[0] != '0')
    ensures DecimalText(DigitsValue(t)) == t
    decreases |t|
  {
    var u := t[..|t| - 1];
    var d := t[|t| - 1] as int - '0' as int;
    if |t| > 1 {
      DigitsValueOfLeadingDigit(u);
      DecimalTextOfDigitsValue(u);
      var n := DigitsValue(t);
      assert n / 10 == DigitsValue(u) && n % 10 == d;
      assert DigitChar(d) == t[|t| - 1];
      assert t == u + [t[|t| - 1]];
    }
  }

  /** A digit string that starts with a non-zero digit denotes a positive number. */
  lemma {:induction false} DigitsValueOfLeadingDigit(t: string)
    requires t != [] && AllDigits(t) && t[0] != '0'
    ensures DigitsValue(t) >= 1
    decreases |t|
  {
    if |t| > 1 {
      DigitsValueOfLeadingDigit(t[..|t| - 1]);
    }
  }

  /** Conversely, a `<digits>px` text without a leading zero is the text of its own pixel value. */
  lemma PxTextOfParsePx(s: string, n: nat)
    ensures ParsePx(s) == Some(n) && (|s| == 3 || s[0] != '0') ==> s == PxText(n)
  {
    if ParsePx(s) == Some(n) && (|s| == 3 || s[0] != '0') {
      var t := s[..|s| - 2];
      assert t[0] == s[0];
      DecimalTextOfDigitsValue(t);
      assert s == t + s[|s| - 2..];
    }
  }

  /** The three well-formed thresholds, in pixels. */
  lemma BreakpointValues()
    ensures ParsePx(Mobile) == Some(375)
    ensures ParsePx(Tablet) == Some(768)
    ensures ParsePx(Desktop) == Some(1024)
  {
    assert Mobile == PxText(375) by {
      assert DecimalText(375) == "375";
    }
    ParsePxOfPxText(375);
    assert Tablet == PxText(768) by {
      assert DecimalText(768) == "768";
    }
    ParsePxOfPxText(768);
    assert Desktop == PxText(1024) by {
      assert DecimalText(1024) == "1024";
    }
    ParsePxOfPxText(1024);
  }

  /** mobile < tablet < desktop. */
  lemma BreakpointsAscending()
    ensures ParsePx(Mobile).Some? && ParsePx(Tablet).Some? && ParsePx(Desktop).Some?
    ensures ParsePx(Mobile).value < ParsePx(Tablet).value < ParsePx(Desktop).value
  {
    BreakpointValues();
  }

  /** `desktopLarge` as written is not a pixel length at all. */
  lemma DesktopLargeIsNotPx()
    ensures ParsePx(DesktopLarge) == None
  {
  }

  /** With the unit corrected, `desktopLarge` is 1440px and continues the ascending table. */
  lemma DesktopLargeIntendedAscending()
    ensures ParsePx(DesktopLargeIntended) == Some(1440)
    ensures ParsePx(Desktop).Some? && ParsePx(Desktop).value < 1440
  {
    assert DesktopLargeIntended == PxText(1440) by {
      assert DecimalText(1440) == "1440";
    }
    ParsePxOfPxText(1440);
    BreakpointValues();
  }

  // --------------------------------------------------------- media queries

  /** A media query over the viewport width. */
  datatype MediaQuery =
    | MinWidth(px: int)
    | MaxWidth(px: int)
    | And(left: MediaQuery, right: MediaQuery)

  predicate Matches(q: MediaQuery, width: int) {
    match q
    case MinWidth(w) => width >= w
    case MaxWidth(w) => width <= w
    case And(l, r) => Matches(l, width) && Matches(r, width)
  }

  /** `up(value)`: `(min-width: value + 1px)`. */
  function Up(value: int): (q: MediaQuery)
    ensures forall p :: Matches(q, p) <==> p >= value + 1
  {
    MinWidth(value + 1)
  }

  /** `down(value)`: `(max-width: value)`. */
  function Down(value: int): (q: MediaQuery)
    ensures forall p :: Matches(q, p) <==> p <= value
  {
    MaxWidth(value)
  }

  /** `between(min, max)` as written: `(max-width: min) and (min-width: max - 1px)`. */
  function Between(min: int, max: int): (q: MediaQuery)
    ensures forall p :: Matches(q, p) <==> max - 1 <= p <= min
  {
    And(MaxWidth(min), MinWidth(max - 1))
  }

  /** Every width is matched by exactly one of `up(w)` and `down(w)`; w belongs to down, w + 1 to up. */
  lemma UpDownPartition(w: int, p: int)
    ensures Matches(Up(w), p) != Matches(Down(w), p)
    ensures Matches(Down(w), w) && Matches(Up(w), w + 1)
  {
  }

  /** As written, `between` matches some width only when max - 1 <= min. */
  lemma BetweenNonEmptyIff(min: int, max: int)
    ensures (exists p :: Matches(Between(min, max), p)) <==> max - 1 <= min
  {
    var q := Between(min, max);
    if max - 1 <= min {
      assert max - 1 <= min <= min;
      assert Matches(q, min);
      assert exists p :: Matches(Between(min, max), p);
    } else {
      forall p ensures !Matches(q, p) {
      }
    }
  }

  /** So `between(mobile, tablet)`, the band it is evidently meant for, matches no width. */
  lemma BetweenMobileTabletIsEmpty(p: int)
    ensures !Matches(Between(375, 768), p)
  {
  }

  /** The band strictly above `min` and up to `max`: the part `up(min)` and `down(max)` share. */
  function BetweenBand(min: int, max: int): (q: MediaQuery)
    ensures forall p :: Matches(q, p) <==> min < p <= max
  {
    And(Up(min), Down(max))
  }

  /** With the band, `down(a)`, `between(a, b)` and `up(b)` tile the widths: each p matches exactly one. */
  lemma BandTiles(a: int, b: int, p: int)
    requires a <= b
    ensures Matches(Down(a), p) || Matches(BetweenBand(a, b), p) || Matches(Up(b), p)
    ensures !(Matches(Down(a), p) && Matches(BetweenBand(a, b), p))
    ensures !(Matches(BetweenBand(a, b), p) && Matches(Up(b), p))
    ensures !(Matches(Down(a), p) && Matches(Up(b), p))
  {
  }
}

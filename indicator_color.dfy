/** The metric colour mapper of frontend/src/composables/useIndicatorCanvas.js:
    per-metric palettes, the legend gradient string, the degraded-stats
    fallback, the normalised colour parameter t, and the muted-gray rewrite
    of an `rgb(...)` colour used for markers outside the focus set.
    d3.interpolateRgbBasis is a parameter of the model. */
module IndicatorColor {
  import opened Common

  // ---------------------------------------------------------------------
  // Normalisation

  /** clamp01: the source's `Math.max(0, Math.min(1, v))`. */
  function Clamp01(v: real): (r: real)
    ensures 0.0 <= r <= 1.0
    ensures 0.0 <= v <= 1.0 ==> r == v
    ensures v < 0.0 ==> r == 0.0
    ensures v > 1.0 ==> r == 1.0
  {
    Clamp(v, 0.0, 1.0)
  }

  /** A JavaScript number as far as safeStats distinguishes them: a finite
      value, or one of NaN, Infinity and -Infinity. */
  datatype JsNumber = Finite(value: real) | NonFinite

  /** The stats record a metric field carries; either field may be absent. */
  datatype Stats = Stats(min: Option<JsNumber>, max: Option<JsNumber>)

  /** The usable range safeStats returns. */
  datatype Range = Range(min: real, max: real)

  /** `stats?.min ?? 0` and `stats?.max ?? 100`: the default or the given
      field, and the given field whenever it is present. */
  function StatMin(stats: Option<Stats>): (n: JsNumber)
    ensures n == Finite(0.0) || (stats.Some? && stats.value.min == Some(n))
    ensures stats.Some? && stats.value.min.Some? ==> n == stats.value.min.value
  {
    if stats.Some? && stats.value.min.Some? then stats.value.min.value else Finite(0.0)
  }

  function StatMax(stats: Option<Stats>): (n: JsNumber)
    ensures n == Finite(100.0) || (stats.Some? && stats.value.max == Some(n))
    ensures stats.Some? && stats.value.max.Some? ==> n == stats.value.max.value
  {
    if stats.Some? && stats.value.max.Some? then stats.value.max.value else Finite(100.0)
  }

  /** safeStats: the given range when both ends are finite and distinct,
      the fallback [0, 100] otherwise. The result never has min == max, so
      the colour parameter never divides by zero. */
  function SafeStats(stats: Option<Stats>): (r: Range)
    ensures r.min != r.max
    ensures StatMin(stats).NonFinite? || StatMax(stats).NonFinite? || StatMin(stats) == StatMax(stats) ==>
              r == Range(0.0, 100.0)
    ensures StatMin(stats).Finite? && StatMax(stats).Finite? && StatMin(stats) != StatMax(stats) ==>
              r == Range(StatMin(stats).value, StatMax(stats).value)
  {
    var lo := StatMin(stats);
    var hi := StatMax(stats);
    if lo.NonFinite? || hi.NonFinite? || lo.value == hi.value then Range(0.0, 100.0)
    else Range(lo.value, hi.value)
  }

  /** Absent stats and absent fields fall back to the same [0, 100]. */
  lemma SafeStatsDefaults(lo: Option<JsNumber>, hi: Option<JsNumber>)
    ensures SafeStats(None) == Range(0.0, 100.0)
    ensures SafeStats(Some(Stats(None, None))) == Range(0.0, 100.0)
    ensures lo == Some(Finite(0.0)) || lo == None ==>
              SafeStats(Some(Stats(lo, Some(Finite(100.0))))) == Range(0.0, 100.0)
  {
  }

  /** safeStats is idempotent: feeding its answer back returns it. */
  lemma SafeStatsIdempotent(stats: Option<Stats>)
    ensures var r := SafeStats(stats);
            SafeStats(Some(Stats(Some(Finite(r.min)), Some(Finite(r.max))))) == r
  {
  }

  /** `clamp01((value - min) / (max - min))` over a usable range. */
  function Normalize(value: real, r: Range): (t: real)
    requires r.min != r.max
    ensures 0.0 <= t <= 1.0
  {
    Clamp01((value - r.min) / (r.max - r.min))
  }

  /** The parameter t that getColor hands to the palette interpolator. */
  function ColorParam(value: real, stats: Option<Stats>): (t: real)
    ensures 0.0 <= t <= 1.0
  {
    Normalize(value, SafeStats(stats))
  }

  lemma DivSelf(d: real)
    requires d != 0.0
    ensures d / d == 1.0
  {
  }

  lemma DivHalf(d: real)
    requires d != 0.0
    ensures (0.5 * d) / d == 0.5
  {
  }

  /** On a usable range, min maps to the first end of the ramp, max to the
      last, and the midpoint to its middle. */
  lemma NormalizeAnchors(r: Range)
    requires r.min != r.max
    ensures Normalize(r.min, r) == 0.0
    ensures Normalize(r.max, r) == 1.0
    ensures Normalize((r.min + r.max) / 2.0, r) == 0.5
  {
    var d := r.max - r.min;
    assert (r.min - r.min) / d == 0.0;
    DivSelf(d);
    assert (r.min + r.max) / 2.0 - r.min == 0.5 * d;
    DivHalf(d);
  }

  /** On an increasing range a larger value never gets a smaller t. */
  lemma ColorParamMonotone(v1: real, v2: real, stats: Option<Stats>)
    requires SafeStats(stats).min < SafeStats(stats).max
    requires v1 <= v2
    ensures ColorParam(v1, stats) <= ColorParam(v2, stats)
  {
    var r := SafeStats(stats);
    var d := r.max - r.min;
    assert (v2 - r.min) / d - (v1 - r.min) / d == (v2 - v1) / d;
    assert (v2 - v1) / d >= 0.0;
  }

  // ---------------------------------------------------------------------
  // Palettes and the legend

  const MetricPalettes: map<string, seq<string>> := map[
    "mpi" := ["#3b82f6", "#facc15", "#fb923c", "#f87171", "#dc2626"],
    "rsi" := ["#dc2626", "#fb923c", "#facc15", "#84cc16", "#16a34a"],
    "bri" := ["#dc2626", "#fb923c", "#facc15", "#84cc16", "#16a34a"],
    "asi" := ["#3b82f6", "#6366f1", "#8b5cf6", "#ec4899", "#dc2626"]
  ]

  /** getPalette: the metric's ramp, or the mpi ramp for an unknown metric. */
  function GetPalette(metric: string): (colors: seq<string>)
    ensures |colors| == 5
    ensures metric in MetricPalettes ==> colors == MetricPalettes[metric]
    ensures metric !in MetricPalettes ==> colors == MetricPalettes["mpi"]
    ensures forall k :: 0 <= k < |colors| ==> ',' !in colors[k]
  {
    if metric in MetricPalettes then MetricPalettes[metric] else MetricPalettes["mpi"]
  }

  /** `colors.join(sep)`: the parts in order with one separator between
      neighbours, so its length is the parts' lengths plus |xs| - 1. */
  function Join(xs: seq<string>, sep: char): (s: string)
    ensures |xs| == 0 ==> s == ""
    ensures |xs| >= 1 ==> |s| == TotalLength(xs) + |xs| - 1 && s[..|xs[0]|] == xs[0]
    ensures |xs| >= 2 ==> s[|xs[0]|] == sep
  {
    if |xs| == 0 then ""
    else if |xs| == 1 then xs[0]
    else xs[0] + [sep] + Join(xs[1..], sep)
  }

  function TotalLength(xs: seq<string>): nat {
    if |xs| == 0 then 0 else |xs[0]| + TotalLength(xs[1..])
  }

  /** The index of the first c in s, or |s| when there is none. */
  function FirstIndex(s: string, c: char): (i: nat)
    ensures i <= |s|
    ensures c !in s[..i]
    ensures i < |s| ==> s[i] == c
  {
    if |s| == 0 then 0
    else if s[0] == c then 0
    else
      var k := FirstIndex(s[1..], c);
      assert s[1..][..k] == s[1..k + 1];
      assert s[..k + 1] == [s[0]] + s[1..k + 1];
      1 + k
  }

  /** `s.split(c)`: the pieces between occurrences of c. */
  function Split(s: string, c: char): (parts: seq<string>)
    ensures |parts| >= 1
    decreases |s|
  {
    var i := FirstIndex(s, c);
    if i == |s| then [s] else [s[..i]] + Split(s[i + 1..], c)
  }

  lemma FirstIndexOfJoin(a: string, c: char, rest: string)
    requires c !in a
    ensures FirstIndex(a + [c] + rest, c) == |a|
  {
    var s := a + [c] + rest;
    assert s[|a|] == c;
  }

  /** Splitting a join at the separator gives the parts back, provided no
      part contains the separator. */
  lemma {:induction false} SplitJoin(xs: seq<string>, c: char)
    requires |xs| >= 1
    requires forall k :: 0 <= k < |xs| ==> c !in xs[k]
    ensures Split(Join(xs, c), c) == xs
    decreases |xs|
  {
    if |xs| == 1 {
      var i := FirstIndex(xs[0], c);
    } else {
      var rest := Join(xs[1..], c);
      var s := xs[0] + [c] + rest;
      FirstIndexOfJoin(xs[0], c, rest);
      assert s[..|xs[0]|] == xs[0];
      assert s[|xs[0]| + 1..] == rest;
      SplitJoin(xs[1..], c);
      assert [xs[0]] + xs[1..] == xs;
    }
  }

  const GradientPrefix: string := "linear-gradient(90deg, "

  /** getLegendGradient: a CSS linear gradient over the metric's ramp. */
  function GetLegendGradient(metric: string): (css: string)
    ensures |css| > |GradientPrefix| && css[..|GradientPrefix|] == GradientPrefix
    ensures css[|css| - 1] == ')'
  {
    GradientPrefix + Join(GetPalette(metric), ',') + ")"
  }

  /** The legend lists the ramp's stops in ramp order: the text between the
      prefix and the closing parenthesis splits back into the palette. */
  lemma LegendListsPalette(metric: string)
    ensures var css := GetLegendGradient(metric);
            Split(css[|GradientPrefix|..|css| - 1], ',') == GetPalette(metric)
  {
    var css := GetLegendGradient(metric);
    assert css[|GradientPrefix|..|css| - 1] == Join(GetPalette(metric), ',');
    SplitJoin(GetPalette(metric), ',');
  }

  /** getColor: the ramp interpolated at t. `interpolate` stands for
      d3.interpolateRgbBasis(palette) applied to t. */
  function GetColor(metric: string, value: real, stats: Option<Stats>,
                    interpolate: (seq<string>, real) -> string): (color: string)
    ensures color == interpolate(GetPalette(metric), ColorParam(value, stats))
    ensures 0.0 <= ColorParam(value, stats) <= 1.0
  {
    var t := ColorParam(value, stats);
    interpolate(GetPalette(metric), t)
  }

  // ---------------------------------------------------------------------
  // colorToRgb and toMutedGray

  datatype Rgb = Rgb(r: nat, g: nat, b: nat)

  /** The regular expression's case-insensitive letter test. */
  function Lower(c: char): char {
    if 'A' <= c <= 'Z' then (c as int + 32) as char else c
  }

  /** `\d` without the u flag: the ASCII digits. */
  predicate IsDigit(c: char) {
    '0' <= c <= '9'
  }

  /** `\s`: the ECMAScript white space and line terminator characters. */
  predicate IsSpace(c: char) {
    || c == '\t' || c == '\n' || c == '\U{000B}' || c == '\U{000C}' || c == '\r' || c == ' '
    || c == '\U{00A0}' || c == '\U{1680}' || ('\U{2000}' <= c <= '\U{200A}')
    || c == '\U{2028}' || c == '\U{2029}' || c == '\U{202F}' || c == '\U{205F}'
    || c == '\U{3000}' || c == '\U{FEFF}'
  }

  predicate AllDigits(s: string) {
    forall k :: 0 <= k < |s| ==> IsDigit(s[k])
  }

  /** The length of the run of digits that starts the text (`\d+` is greedy). */
  function DigitPrefix(s: string): (n: nat)
    ensures n <= |s|
    ensures AllDigits(s[..n])
    ensures n < |s| ==> !IsDigit(s[n])
  {
    if |s| > 0 && IsDigit(s[0]) then
      var k := DigitPrefix(s[1..]);
      assert s[..k + 1] == [s[0]] + s[1..][..k];
      1 + k
    else 0
  }

  /** The length of the run of white space that starts the text. */
  function SpacePrefix(s: string): (n: nat)
    ensures n <= |s|
    ensures n < |s| ==> !IsSpace(s[n])
  {
    if |s| > 0 && IsSpace(s[0]) then 1 + SpacePrefix(s[1..]) else 0
  }

  /** `Number(...)` of a run of decimal digits. */
  function DigitsValue(ds: string): nat
    requires AllDigits(ds)
  {
    if |ds| == 0 then 0
    else
      var last := ds[|ds| - 1];
      assert IsDigit(last);
      assert AllDigits(ds[..|ds| - 1]) by {
        assert forall k :: 0 <= k < |ds| - 1 ==> ds[..|ds| - 1][k] == ds[k];
      }
      DigitsValue(ds[..|ds| - 1]) * 10 + (last as int - '0' as int)
  }

  /** `(\d+)` at the start of the text: its value. */
  function Digits(s: string): Option<nat> {
    var n := DigitPrefix(s);
    if n == 0 then None else Some(DigitsValue(s[..n]))
  }

  /** `(\d+),\s*` at the start of the text: the value and what follows. */
  function DigitsComma(s: string): Option<(nat, string)> {
    var n := DigitPrefix(s);
    if n == 0 || n == |s| || s[n] != ',' then None
    else
      var t := s[n + 1..];
      Some((DigitsValue(s[..n]), t[SpacePrefix(t)..]))
  }

  /** `(\d+),\s*(\d+),\s*(\d+)` at the start of the text. */
  function MatchTriple(s: string): Option<Rgb> {
    match DigitsComma(s)
    case None => None
    case Some((r, s1)) =>
      match DigitsComma(s1)
      case None => None
      case Some((g, s2)) =>
        match Digits(s2)
        case None => None
        case Some(b) => Some(Rgb(r, g, b))
  }

  /** `/rgba?\((\d+),\s*(\d+),\s*(\d+)/i` at the start of the text. The
      optional `a` is never given back, since what follows it must be `(`. */
  function MatchHere(s: string): Option<Rgb> {
    if |s| < 3 || Lower(s[0]) != 'r' || Lower(s[1]) != 'g' || Lower(s[2]) != 'b' then None
    else
      var q := if |s| > 3 && Lower(s[3]) == 'a' then 4 else 3;
      if q >= |s| || s[q] != '(' then None
      else MatchTriple(s[q + 1..])
  }

  /** The leftmost match: the first suffix at which the expression matches. */
  function Search(s: string): Option<Rgb> {
    var m := MatchHere(s);
    if m.Some? || |s| == 0 then m else Search(s[1..])
  }

  /** colorToRgb: the channels of the first `rgb(`/`rgba(` in the text:
      none exactly when the expression matches at no position, and otherwise
      the match at the leftmost position where it matches. */
  function ColorToRgb(color: string): (m: Option<Rgb>)
    ensures m.None? <==> forall k :: 0 <= k <= |color| ==> MatchHere(color[k..]).None?
    ensures m.Some? ==> exists k :: 0 <= k <= |color| && MatchHere(color[k..]) == m &&
                                    forall j :: 0 <= j < k ==> MatchHere(color[j..]).None?
  {
    SearchLeftmost(color);
    Search(color)
  }

  /** Search finds the leftmost position at which MatchHere succeeds. */
  lemma {:induction false} SearchLeftmost(s: string)
    ensures Search(s).None? <==> forall k :: 0 <= k <= |s| ==> MatchHere(s[k..]).None?
    ensures Search(s).Some? ==> exists k :: 0 <= k <= |s| && MatchHere(s[k..]) == Search(s) &&
                                            forall j :: 0 <= j < k ==> MatchHere(s[j..]).None?
    decreases |s|
  {
    assert s[0..] == s;
    if MatchHere(s).None? && |s| > 0 {
      SearchLeftmost(s[1..]);
      forall k | 1 <= k <= |s|
        ensures s[k..] == s[1..][k - 1..]
      {
      }
      if Search(s).Some? {
        var k' :| 0 <= k' <= |s[1..]| && MatchHere(s[1..][k'..]) == Search(s[1..]) &&
                  forall j :: 0 <= j < k' ==> MatchHere(s[1..][j..]).None?;
        assert MatchHere(s[k' + 1..]) == Search(s);
        forall j | 0 <= j < k' + 1
          ensures MatchHere(s[j..]).None?
        {
          if j > 0 {
            assert s[j..] == s[1..][j - 1..];
          }
        }
      } else {
        forall k | 0 <= k <= |s|
          ensures MatchHere(s[k..]).None?
        {
          if k > 0 {
            assert s[k..] == s[1..][k - 1..];
          }
        }
      }
    }
  }

  /** Math.round: halves go towards +infinity. */
  function Round(x: real): (n: int)
    ensures x - 0.5 < n as real <= x + 0.5
  {
    (x + 0.5).Floor
  }

  function DigitChar(d: nat): (c: char)
    requires d < 10
    ensures IsDigit(c)
    ensures c as int - '0' as int == d
  {
    ('0' as int + d) as char
  }

  /** Decimal text of a natural number. */
  function NatToString(n: nat): (s: string)
    ensures |s| >= 1
    ensures AllDigits(s)
  {
    if n < 10 then [DigitChar(n)]
    else
      var init := NatToString(n / 10);
      var s := init + [DigitChar(n % 10)];
      assert forall k :: 0 <= k < |init| ==> s[k] == init[k];
      s
  }

  /** Decimal text of an integer, with a leading minus sign when negative. */
  function IntToString(i: int): string {
    if i < 0 then "-" + NatToString(-i) else NatToString(i)
  }

  /** Reading back the decimal text of n gives n. */
  lemma {:induction false} NatToStringValue(n: nat)
    ensures DigitsValue(NatToString(n)) == n
  {
    if n >= 10 {
      var s := NatToString(n);
      assert s[..|s| - 1] == NatToString(n / 10);
      NatToStringValue(n / 10);
    }
  }

  const MutedFallback: string := "#94a3b8"

  /** The luminance gray (0.299 r + 0.587 g + 0.114 b, rounded) blended with
      235 at the given ratio, rounded again. */
  function MutedLevel(c: Rgb, ratio: real): (n: int)
    ensures ratio == 1.0 ==> n == Round(Luma(c))
    ensures ratio == 0.0 ==> n == 235
  {
    var gray := Round(Luma(c));
    Round(gray as real * ratio + 235.0 * (1.0 - ratio))
  }

  /** The luminance 0.299 r + 0.587 g + 0.114 b. */
  function Luma(c: Rgb): real {
    c.r as real * 0.299 + c.g as real * 0.587 + c.b as real * 0.114
  }

  /** toMutedGray: the fallback slate colour when the text holds no
      `rgb(...)`, otherwise `rgb(v,v,v)` with v the muted level. */
  function ToMutedGray(color: string, ratio: real): string {
    var rgb := ColorToRgb(color);
    if rgb.None? then MutedFallback
    else GrayText(IntToString(MutedLevel(rgb.value, ratio)))
  }

  /** Muting yields the fallback exactly when the text holds no match;
      any parsed colour mutes to an `rgb(` text instead. */
  lemma ToMutedGrayFallbackIff(color: string, ratio: real)
    ensures ToMutedGray(color, ratio) == MutedFallback <==> ColorToRgb(color).None?
    ensures ColorToRgb(color).Some? ==> ToMutedGray(color, ratio)[..4] == "rgb("
  {
    var rgb := ColorToRgb(color);
    if rgb.Some? {
      var t := GrayText(IntToString(MutedLevel(rgb.value, ratio)));
      assert ToMutedGray(color, ratio) == t;
      assert t[0] != MutedFallback[0];
    }
  }

  /** The template `rgb(${v},${v},${v})` with the level's text v. */
  function GrayText(level: string): (t: string)
    ensures |t| > 4 && t[..4] == "rgb("
  {
    "rgb(" + (level + ("," + (level + ("," + (level + ")")))))
  }

  /** The fallback colour holds no `rgb(...)`, so muting it again keeps it. */
  lemma MutedFallbackStable(ratio: real)
    ensures ColorToRgb(MutedFallback) == None
    ensures ToMutedGray(MutedFallback, ratio) == MutedFallback
  {
    SearchWithoutR(MutedFallback);
  }

  /** A text without any r or R holds no match. */
  lemma {:induction false} SearchWithoutR(s: string)
    requires forall k :: 0 <= k < |s| ==> Lower(s[k]) != 'r'
    ensures Search(s) == None
  {
    if |s| > 0 {
      SearchWithoutR(s[1..]);
    }
  }

  /** For a channel triple within 0..255 and a ratio in [0, 1] the muted
      level is within 0..255 too. */
  lemma MutedLevelRange(c: Rgb, ratio: real)
    requires c.r <= 255 && c.g <= 255 && c.b <= 255
    requires 0.0 <= ratio <= 1.0
    ensures 0 <= MutedLevel(c, ratio) <= 255
  {
    var lum := Luma(c);
    assert 0.0 <= lum <= 255.0;
    var gray := Round(lum);
    assert 0 <= gray <= 255;
    ScaledFraction(gray as real, ratio);
    ScaledFraction(235.0, 1.0 - ratio);
    var mix := gray as real * ratio + 235.0 * (1.0 - ratio);
    assert mix <= 255.0 * ratio + 255.0 * (1.0 - ratio) by {
      ScaledFraction(255.0 - gray as real, ratio);
      ScaledFraction(20.0, 1.0 - ratio);
    }
  }

  /** A run of digits followed by a non-digit (or nothing) is read whole. */
  lemma {:induction false} DigitPrefixOf(d: string, rest: string)
    requires AllDigits(d)
    requires |rest| > 0 ==> !IsDigit(rest[0])
    ensures DigitPrefix(d + rest) == |d|
  {
    if |d| > 0 {
      assert (d + rest)[1..] == d[1..] + rest;
      DigitPrefixOf(d[1..], rest);
    }
  }

  lemma DigitsCommaOf(d: string, rest: string)
    requires |d| >= 1 && AllDigits(d)
    requires |rest| > 0 && IsDigit(rest[0])
    ensures DigitsComma(d + ("," + rest)) == Some((DigitsValue(d), rest))
  {
    var s := d + ("," + rest);
    DigitPrefixOf(d, "," + rest);
    assert s[|d|] == ',' && s[..|d|] == d && s[|d| + 1..] == rest;
    assert SpacePrefix(rest) == 0 by { assert IsDigit(rest[0]); }
    assert rest[0..] == rest;
  }

  lemma DigitsOf(d: string, rest: string)
    requires |d| >= 1 && AllDigits(d)
    requires |rest| > 0 && !IsDigit(rest[0])
    ensures Digits(d + rest) == Some(DigitsValue(d))
  {
    DigitPrefixOf(d, rest);
    assert (d + rest)[..|d|] == d;
  }

  /** `d,d,d` followed by a non-digit matches the triple, three times d. */
  lemma TripleOf(d: string, rest: string)
    requires |d| >= 1 && AllDigits(d)
    requires |rest| > 0 && !IsDigit(rest[0])
    ensures MatchTriple(d + ("," + (d + ("," + (d + rest)))))
            == Some(Rgb(DigitsValue(d), DigitsValue(d), DigitsValue(d)))
  {
    var r2 := d + rest;
    var r1 := d + ("," + r2);
    DigitsCommaOf(d, r1);
    DigitsCommaOf(d, r2);
    DigitsOf(d, rest);
  }

  /** After `rgb(` the match continues with the channel triple. */
  lemma MatchHereRgb(t: string)
    ensures MatchHere("rgb(" + t) == MatchTriple(t)
  {
    var s := "rgb(" + t;
    assert s[0] == 'r' && s[1] == 'g' && s[2] == 'b' && s[3] == '(';
    assert s[4..] == t;
  }

  /** `rgb(d,d,d)` over a digit string d parses to (v, v, v). */
  lemma ParseGrayTriple(d: string)
    requires |d| >= 1 && AllDigits(d)
    ensures ColorToRgb(GrayText(d)) == Some(Rgb(DigitsValue(d), DigitsValue(d), DigitsValue(d)))
  {
    var t := d + ("," + (d + ("," + (d + ")"))));
    TripleOf(d, ")");
    MatchHereRgb(t);
    assert GrayText(d) == "rgb(" + t;
  }

  /** Muting a colour that parses yields a colour that parses, with all
      three channels equal to the muted level. */
  lemma MutedGrayParses(color: string, ratio: real)
    requires ColorToRgb(color).Some?
    requires MutedLevel(ColorToRgb(color).value, ratio) >= 0
    ensures var v := MutedLevel(ColorToRgb(color).value, ratio);
            ColorToRgb(ToMutedGray(color, ratio)) == Some(Rgb(v, v, v))
  {
    var v := MutedLevel(ColorToRgb(color).value, ratio);
    var d := NatToString(v);
    ParseGrayTriple(d);
    NatToStringValue(v);
  }
}

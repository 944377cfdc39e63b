/**
 * The animated impact counter (AnimatedCounter): which unit its label asks for,
 * how the number is shown with that unit, and how each animation frame renders
 * the running value. Turning a number into text (String(v), v.toLocaleString(),
 * v.toFixed(1)) depends on floating point and the locale, so it is not
 * interpreted here: a Renderer supplies those three renderings.
 */
module CounterFormat {
  import opened Wrappers

  /** The unit formatDisplayValue adds, chosen from the label. */
  datatype Unit = Millions | Plus | Times | Percent | NoUnit

  /** The three number renderings the counter uses: String(v), v.toLocaleString(), v.toFixed(1). */
  datatype Renderer = Renderer(plain: real -> string, grouped: real -> string, oneDecimal: real -> string)

  /** The label tests run in a fixed order and the first that matches decides the unit. */
  function UnitOf(text: string): (u: Unit)
    ensures u == Millions <==> '$' in text
    ensures u == Plus <==> '$' !in text && '+' in text
    ensures u == Times <==> '$' !in text && '+' !in text && 'x' in text
    ensures u == Percent <==> '$' !in text && '+' !in text && 'x' !in text && '%' in text
    ensures u == NoUnit <==> '$' !in text && '+' !in text && 'x' !in text && '%' !in text
  {
    if '$' in text then Millions
    else if '+' in text then Plus
    else if 'x' in text then Times
    else if '%' in text then Percent
    else NoUnit
  }

  /** The unit written around the number: "$" and "M" around it, or a one-character suffix. */
  function WithUnit(u: Unit, digits: string): (display: string)
    ensures u == NoUnit ==> display == digits
    ensures u == Millions ==> |display| == |digits| + 2 && display[0] == '$' && display[|display| - 1] == 'M'
    ensures u == Plus ==> |display| == |digits| + 1 && display[|display| - 1] == '+'
    ensures u == Times ==> |display| == |digits| + 1 && display[|display| - 1] == 'x'
    ensures u == Percent ==> |display| == |digits| + 1 && display[|display| - 1] == '%'
  {
    match u
    case Millions => "$" + digits + "M"
    case Plus => digits + "+"
    case Times => digits + "x"
    case Percent => digits + "%"
    case NoUnit => digits
  }

  /** Reads the number back out of a display carrying unit `u`; None when the display does not carry it. */
  function DigitsOf(u: Unit, display: string): Option<string> {
    match u
    case Millions =>
      if |display| >= 2 && display[0] == '$' && display[|display| - 1] == 'M'
      then Some(display[1..|display| - 1]) else None
    case Plus => if |display| >= 1 && display[|display| - 1] == '+' then Some(display[..|display| - 1]) else None
    case Times => if |display| >= 1 && display[|display| - 1] == 'x' then Some(display[..|display| - 1]) else None
    case Percent => if |display| >= 1 && display[|display| - 1] == '%' then Some(display[..|display| - 1]) else None
    case NoUnit => Some(display)
  }

  /** The unit never swallows the number: it can always be read back. */
  lemma WithUnitRoundTrip(u: Unit, digits: string)
    ensures DigitsOf(u, WithUnit(u, digits)) == Some(digits)
  {
  }

  /**
   * With reduced motion the number is rendered straight from the target value,
   * each unit with its own rendering: the plain String(v) for "$" and "%",
   * grouped digits for "+" and for no unit, one decimal for "x".
   */
  function ReducedMotionDigits(u: Unit, value: real, fmt: Renderer): (digits: string)
    ensures u == Millions || u == Percent ==> digits == fmt.plain(value)
    ensures u == Plus || u == NoUnit ==> digits == fmt.grouped(value)
    ensures u == Times ==> digits == fmt.oneDecimal(value)
  {
    match u
    case Millions => fmt.plain(value)
    case Plus => fmt.grouped(value)
    case Times => fmt.oneDecimal(value)
    case Percent => fmt.plain(value)
    case NoUnit => fmt.grouped(value)
  }

  /**
   * formatDisplayValue: the label's unit put around either the target value
   * (reduced motion) or the animation's current display text.
   */
  function FormatDisplayValue(reduceMotion: bool, text: string, value: real, displayValue: string, fmt: Renderer): (display: string)
    ensures DigitsOf(UnitOf(text), display)
            == Some(if reduceMotion then ReducedMotionDigits(UnitOf(text), value, fmt) else displayValue)
  {
    var u := UnitOf(text);
    WithUnit(u, if reduceMotion then ReducedMotionDigits(u, value, fmt) else displayValue)
  }

  /** Math.round: the nearest integer, halves rounded up. */
  function Round(x: real): (n: int)
    ensures n as real - 0.5 <= x < n as real + 0.5
  {
    (x + 0.5).Floor
  }

  /** A whole number rounds to itself. */
  lemma RoundIntegral(x: real)
    requires x == x.Floor as real
    ensures Round(x) as real == x
  {
    var k, n := x.Floor, Round(x);
    assert (k - n) as real < 1.0 && (n - k) as real <= 1.0;
    assert k - n < 1 && n - k <= 0;
  }

  /**
   * The onUpdate callback as written: one decimal whenever the label contains
   * an 'x' anywhere, otherwise the rounded value with grouped digits.
   */
  function FrameText(text: string, latest: real, fmt: Renderer): (shown: string)
    ensures 'x' in text ==> shown == fmt.oneDecimal(latest)
    ensures 'x' !in text ==> shown == fmt.grouped(Round(latest) as real)
  {
    if 'x' in text then fmt.oneDecimal(latest) else fmt.grouped(Round(latest) as real)
  }

  /**
   * The onUpdate callback as evidently intended: one decimal exactly when the
   * label's unit is "x", so that a frame is rendered the way the unit that
   * formatDisplayValue puts around it expects.
   */
  function FrameTextIntended(text: string, latest: real, fmt: Renderer): (shown: string)
    ensures UnitOf(text) == Times ==> shown == fmt.oneDecimal(latest)
    ensures UnitOf(text) != Times ==> shown == fmt.grouped(Round(latest) as real)
    ensures !('x' in text && ('$' in text || '+' in text)) ==> shown == FrameText(text, latest, fmt)
  {
    if UnitOf(text) == Times then fmt.oneDecimal(latest) else fmt.grouped(Round(latest) as real)
  }

  /**
   * The label "Exec Community+" asks for the "+" unit, yet its frames are
   * rendered with one decimal, because "Exec" contains an 'x'.
   */
  lemma ExecCommunityFrames(latest: real, fmt: Renderer)
    ensures UnitOf("Exec Community+") == Plus
    ensures FrameText("Exec Community+", latest, fmt) == fmt.oneDecimal(latest)
  {
  }

  /**
   * As written, the last animation frame of the 30,000 counter reads
   * "30000.0+", while the reduced-motion rendering of the same counter reads
   * "30,000+" (given the JavaScript renderings of 30000).
   */
  lemma ExecCommunityFinalFrameMismatch(fmt: Renderer)
    requires fmt.grouped(30000.0) == "30,000" && fmt.oneDecimal(30000.0) == "30000.0"
    ensures FormatDisplayValue(false, "Exec Community+", 30000.0, FrameText("Exec Community+", 30000.0, fmt), fmt) == "30000.0+"
    ensures FormatDisplayValue(true, "Exec Community+", 30000.0, "0", fmt) == "30,000+"
  {
    ExecCommunityFrames(30000.0, fmt);
    assert WithUnit(Plus, "30000.0") == "30000.0+";
    assert WithUnit(Plus, "30,000") == "30,000+";
  }

  /**
   * With the intended frame rendering, the last frame (the running value has
   * reached the target) shows what the reduced-motion path shows, for every
   * label. A non-"x" counter must have a whole target (it is shown rounded),
   * and for "$" and "%" the reduced-motion path prints String(v) where a frame
   * prints grouped digits, so those two must agree on the target.
   */
  lemma IntendedFinalFrameMatchesReducedMotion(text: string, value: real, displayValue: string, fmt: Renderer)
    requires UnitOf(text) != Times ==> value == value.Floor as real
    requires UnitOf(text) == Millions || UnitOf(text) == Percent ==> fmt.plain(value) == fmt.grouped(value)
    ensures FormatDisplayValue(false, text, value, FrameTextIntended(text, value, fmt), fmt)
            == FormatDisplayValue(true, text, value, displayValue, fmt)
  {
    if UnitOf(text) != Times {
      RoundIntegral(value);
    }
  }

  // The five impact numbers of the page shown without animation, given the
  // JavaScript renderings of their targets.

  lemma CommunityCounterReducedMotion(fmt: Renderer)
    requires fmt.grouped(30000.0) == "30,000"
    ensures FormatDisplayValue(true, "Exec Community+", 30000.0, "0", fmt) == "30,000+"
  {
    ExecCommunityFrames(30000.0, fmt);
    assert WithUnit(Plus, "30000.0") == "30000.0+";
    assert WithUnit(Plus, "30,000") == "30,000+";
  }

  lemma NpsCounterReducedMotion(fmt: Renderer)
    requires fmt.grouped(94.0) == "94"
    ensures FormatDisplayValue(true, "Average Summit NPS", 94.0, "0", fmt) == "94"
  {
    var text := "Average Summit NPS";
    assert forall c | c in text :: c != '$' && c != '+' && c != 'x' && c != '%';
    assert UnitOf(text) == NoUnit;
  }

  lemma PipelineCounterReducedMotion(fmt: Renderer)
    requires fmt.plain(42.0) == "42"
    ensures FormatDisplayValue(true, "$42M Pipeline Influenced", 42.0, "0", fmt) == "$42M"
  {
  }

  lemma EngagementCounterReducedMotion(fmt: Renderer)
    requires fmt.oneDecimal(3.8) == "3.8"
    ensures FormatDisplayValue(true, "C-Suite Engagementx", 3.8, "0", fmt) == "3.8x"
  {
  }

  lemma SatisfactionCounterReducedMotion(fmt: Renderer)
    requires fmt.plain(97.0) == "97"
    ensures FormatDisplayValue(true, "Learner Satisfaction%", 97.0, "0", fmt) == "97%"
  {
  }
}

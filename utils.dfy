/**
 * Validators and formatters (lib/utils.ts).
 */
module Utils {
  import opened Seqs
  import opened JsString
  import opened Types

  /* ---------------- validateAddress ---------------- */

  /** The regular-expression class `[a-fA-F0-9]`. */
  predicate IsHexDigit(c: char) {
    'a' <= c <= 'f' || 'A' <= c <= 'F' || '0' <= c <= '9'
  }

  /** Matches `[a-fA-F0-9]{count}$` against the whole of `s`. */
  function MatchHexRun(s: string, count: nat): (r: bool)
    ensures r <==> |s| == count && forall i | 0 <= i < |s| :: IsHexDigit(s[i])
  {
    if count == 0 then s == []
    else s != [] && IsHexDigit(s[0]) && MatchHexRun(s[1..], count - 1)
  }

  /**
   * `/^0x[a-fA-F0-9]{40}$/.test(address)`: exactly `0x` (lower-case x) followed
   * by forty hexadecimal digits of either case, so 42 characters in all.
   */
  function ValidateAddress(address: string): (r: bool)
    ensures r <==> |address| == 42 && address[0] == '0' && address[1] == 'x'
                   && forall i | 2 <= i < 42 :: IsHexDigit(address[i])
  {
    |address| >= 2 && address[..2] == "0x" && MatchHexRun(address[2..], 40)
  }

  /* ---------------- validateAmount ---------------- */

  /** The JavaScript numbers `parseFloat` can return. */
  datatype JsNumber = NaN | Finite(value: real) | PositiveInfinity | NegativeInfinity

  /** `parseFloat` is a parameter of the model; it is not part of it. */
  type FloatParser = string -> JsNumber

  /** `x > y` on JavaScript numbers: every comparison with NaN is false. */
  predicate GreaterThan(x: JsNumber, y: real) {
    match x
    case NaN => false
    case Finite(v) => v > y
    case PositiveInfinity => true
    case NegativeInfinity => false
  }

  /**
   * `!isNaN(num) && num > 0` for `num = parseFloat(amount)`: false when the parse
   * fails or gives a value that is not positive, true otherwise (including
   * `Infinity`).
   */
  function ValidateAmount(parseFloat: FloatParser, amount: string): (r: bool)
    ensures parseFloat(amount).NaN? ==> !r
    ensures parseFloat(amount).Finite? ==> (r <==> parseFloat(amount).value > 0.0)
    ensures parseFloat(amount).PositiveInfinity? ==> r
    ensures parseFloat(amount).NegativeInfinity? ==> !r
  {
    var num := parseFloat(amount);
    !num.NaN? && GreaterThan(num, 0.0)
  }

  /* ---------------- formatAddress ---------------- */

  /**
   * `address.slice(0, 6) + '...' + address.slice(-4)`, or `''` for the empty
   * string: the first six and the last four characters (fewer when the string
   * is shorter) around an ellipsis.
   */
  function FormatAddress(address: string): (r: string)
    ensures address == "" ==> r == ""
    ensures address != "" ==>
      var head := Min(6, |address|);
      var tail := Min(4, |address|);
      r == address[..head] + "..." + address[|address| - tail..]
  {
    if address == "" then ""
    else Slice(address, 0, 6) + "..." + Slice(address, -4, |address|)
  }

  /** A valid address is shown as `0x` and four digits, an ellipsis and its last four digits. */
  lemma FormatValidAddress(address: string)
    requires ValidateAddress(address)
    ensures |FormatAddress(address)| == 13
    ensures FormatAddress(address) == address[..6] + "..." + address[38..]
    ensures FormatAddress(address)[..2] == "0x"
  {
  }

  /* ---------------- formatTimestamp ---------------- */

  /** `Math.floor(a / b)` for a positive divisor. */
  function FloorDiv(a: int, b: int): (q: int)
    requires b > 0
    ensures q * b <= a < q * b + b
  {
    a / b
  }

  const MinuteMs := 60000
  const HourMs := 3600000
  const DayMs := 86400000

  /** The bucket `formatTimestamp` puts an elapsed time in. */
  datatype Elapsed = JustNow | MinutesAgo(minutes: nat) | HoursAgo(hours: nat) | DaysAgo(days: nat)

  /**
   * Which bucket `now - timestamp` falls in, by whole minutes, hours and days
   * rounded down. A timestamp in the future is "just now".
   */
  function ElapsedSince(timestamp: Timestamp, now: Timestamp): (e: Elapsed)
    ensures e.JustNow? <==> now - timestamp < MinuteMs
    ensures e.MinutesAgo? <==> MinuteMs <= now - timestamp < HourMs
    ensures e.HoursAgo? <==> HourMs <= now - timestamp < DayMs
    ensures e.DaysAgo? <==> DayMs <= now - timestamp
    ensures e.MinutesAgo? ==>
      1 <= e.minutes < 60 && e.minutes * MinuteMs <= now - timestamp < (e.minutes + 1) * MinuteMs
    ensures e.HoursAgo? ==>
      1 <= e.hours < 24 && e.hours * HourMs <= now - timestamp < (e.hours + 1) * HourMs
    ensures e.DaysAgo? ==>
      1 <= e.days && e.days * DayMs <= now - timestamp < (e.days + 1) * DayMs
  {
    var diff := now - timestamp;
    var minutes := FloorDiv(diff, MinuteMs);
    var hours := FloorDiv(diff, HourMs);
    var days := FloorDiv(diff, DayMs);
    if minutes < 1 then JustNow
    else if minutes < 60 then MinutesAgo(minutes)
    else if hours < 24 then HoursAgo(hours)
    else DaysAgo(days)
  }

  /** `${n}m ago`, `${n}h ago` or `${n}d ago` for the unit letter given. */
  function CountAgo(n: nat, unit: char): string {
    NatToString(n) + [unit] + " ago"
  }

  function Render(e: Elapsed): string {
    match e
    case JustNow => "Just now"
    case MinutesAgo(m) => CountAgo(m, 'm')
    case HoursAgo(h) => CountAgo(h, 'h')
    case DaysAgo(d) => CountAgo(d, 'd')
  }

  function WithUnit(unit: char, n: nat): Option<Elapsed> {
    match unit
    case 'm' => Some(MinutesAgo(n))
    case 'h' => Some(HoursAgo(n))
    case 'd' => Some(DaysAgo(n))
    case _ => None
  }

  /**
   * Reads a string `formatTimestamp` produces back into its bucket. The count
   * must be written as a template literal writes it, without leading zeros.
   */
  function ParseElapsed(s: string): Option<Elapsed> {
    if s == "Just now" then Some(JustNow)
    else if |s| < 6 || s[|s| - 4..] != " ago" || !IsCanonicalDecimal(s[..|s| - 5]) then None
    else WithUnit(s[|s| - 5], DecimalValue(s[..|s| - 5]))
  }

  /** Rendering loses nothing: the text determines the bucket and its count. */
  lemma {:induction false} ParseRender(e: Elapsed)
    ensures ParseElapsed(Render(e)) == Some(e)
  {
    match e
    case JustNow =>
    case MinutesAgo(n) => ParseCountAgo(n, 'm');
    case HoursAgo(n) => ParseCountAgo(n, 'h');
    case DaysAgo(n) => ParseCountAgo(n, 'd');
  }

  /** Reading back is one-to-one: only the rendering of a bucket reads back to it. */
  lemma RenderParse(s: string)
    requires ParseElapsed(s).Some?
    ensures Render(ParseElapsed(s).value) == s
  {
    if s != "Just now" {
      var digits := s[..|s| - 5];
      NatToStringOfDecimal(digits);
      assert s == digits + [s[|s| - 5]] + " ago";
    }
  }

  lemma ParseCountAgo(n: nat, unit: char)
    ensures ParseElapsed(CountAgo(n, unit)) == WithUnit(unit, n)
  {
    var s := CountAgo(n, unit);
    assert s[|s| - 1] == 'o';
    assert s[|s| - 4..] == " ago";
    assert s[..|s| - 5] == NatToString(n);
    assert s[|s| - 5] == unit;
  }

  /**
   * `formatTimestamp` with the clock passed in: "Just now" exactly when less
   * than a minute has passed (or the timestamp is in the future), otherwise
   * the count and unit of the bucket `ElapsedSince` chooses. No other text
   * reads back to that bucket, so this fixes the text exactly.
   */
  function FormatTimestamp(timestamp: Timestamp, now: Timestamp): (r: string)
    ensures r == "Just now" <==> now - timestamp < MinuteMs
    ensures ParseElapsed(r) == Some(ElapsedSince(timestamp, now))
    ensures forall s :: ParseElapsed(s) == Some(ElapsedSince(timestamp, now)) ==> s == r
  {
    var e := ElapsedSince(timestamp, now);
    ParseRender(e);
    assert forall s :: ParseElapsed(s) == Some(e) ==> s == Render(e) by {
      forall s | ParseElapsed(s) == Some(e) ensures s == Render(e) {
        RenderParse(s);
      }
    }
    Render(e)
  }
}

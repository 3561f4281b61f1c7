/** The decisions onDraw makes from the gauge's integer state: the zone colour,
    the text in the big circle and whether the arc's end cap is drawn. */
module Display {
  import opened AngleModel
  import opened Levels

  /** The four fixed colours: neutral grey, green, yellow and red. */
  datatype Zone = Neutral | Green | Yellow | Red

  function Severity(z: Zone): nat {
    match z
    case Neutral => 0
    case Green => 1
    case Yellow => 2
    case Red => 3
  }

  /** The value arc, the value and the label are drawn only for an active gauge that holds a value. */
  predicate ValueShown(active: bool, value: int) {
    active && value > -1
  }

  // ---------------------------------------------------------------------------
  // Zone colour

  /** getColor: the angle is compared with the angles stored in the two level marks,
      whether or not those marks are shown. */
  function ZoneFor(active: bool, value: int, alarmAngle: int, warningAngle: int, angle: int): (zone: Zone)
    ensures zone == Neutral <==> !ValueShown(active, value)
    ensures ValueShown(active, value) ==> (zone == Red <==> angle >= alarmAngle)
    ensures ValueShown(active, value) ==> (zone == Yellow <==> warningAngle <= angle < alarmAngle)
    ensures ValueShown(active, value) ==> (zone == Green <==> angle < warningAngle && angle < alarmAngle)
  {
    if !active || value < 0 then Neutral
    else if angle >= alarmAngle then Red
    else if angle >= warningAngle then Yellow
    else Green
  }

  /** As the needle moves up the arc the colour only ever gets more severe. */
  lemma ZoneRisesWithAngle(active: bool, value: int, alarmAngle: int, warningAngle: int, a: int, b: int)
    requires ValueShown(active, value) && a <= b
    ensures Severity(ZoneFor(active, value, alarmAngle, warningAngle, a))
         <= Severity(ZoneFor(active, value, alarmAngle, warningAngle, b))
  {
  }

  /** A mark that was never shown keeps its initial angle -1, so an alarm level
      rejected by every setup so far paints every angle on the arc red. */
  lemma NeverShownAlarmIsAlwaysRed(active: bool, value: int, warningAngle: int, angle: int)
    requires ValueShown(active, value) && IsAngle(angle)
    ensures ZoneFor(active, value, -1, warningAngle, angle) == Red
  {
  }

  // ---------------------------------------------------------------------------
  // Decimal text of the value

  predicate IsDigit(c: char) {
    '0' <= c <= '9'
  }

  predicate AllDigits(s: string) {
    forall i :: 0 <= i < |s| ==> IsDigit(s[i])
  }

  function DigitChar(d: nat): (c: char)
    requires d < 10
    ensures IsDigit(c)
  {
    ('0' as int + d) as char
  }

  function DigitValue(c: char): nat
    requires IsDigit(c)
  {
    c as int - '0' as int
  }

  /** The decimal form Kotlin prints for a non-negative Int: at least one digit, and no
      leading zero unless the number is 0 itself. */
  predicate IsCanonicalDecimal(d: string) {
    1 <= |d| && AllDigits(d) && (|d| > 1 ==> d[0] != '0')
  }

  /** Kotlin's Int.toString for a non-negative value: decimal digits, no leading zero. */
  function NatToString(n: nat): (s: string)
    ensures IsCanonicalDecimal(s)
    ensures s[0] == '0' ==> n == 0
    decreases n
  {
    if n < 10 then [DigitChar(n)] else NatToString(n / 10) + [DigitChar(n % 10)]
  }

  /** Reads a string of decimal digits back as a number. */
  function DigitsValue(s: string): nat
    requires AllDigits(s)
  {
    if s == [] then 0 else DigitsValue(s[..|s| - 1]) * 10 + DigitValue(s[|s| - 1])
  }

  lemma {:induction false} NatToStringRoundTrip(n: nat)
    ensures DigitsValue(NatToString(n)) == n
    decreases n
  {
    var s := NatToString(n);
    if n >= 10 {
      NatToStringRoundTrip(n / 10);
      assert s[..|s| - 1] == NatToString(n / 10);
      assert DigitValue(s[|s| - 1]) == n % 10;
    } else {
      assert s[..|s| - 1] == [];
    }
  }

  /** A digit string that does not start with '0' reads back as a positive number. */
  lemma {:induction false} NonZeroLeadReadsPositive(d: string)
    requires 1 <= |d| && AllDigits(d) && d[0] != '0'
    ensures DigitsValue(d) >= 1
    decreases |d|
  {
    if |d| > 1 {
      NonZeroLeadReadsPositive(d[..|d| - 1]);
    }
  }

  /** The canonical decimal form is unique: it is the text Int.toString prints for the
      number it reads back as. */
  lemma {:induction false} CanonicalDecimalUnique(d: string)
    requires IsCanonicalDecimal(d)
    ensures d == NatToString(DigitsValue(d))
    decreases |d|
  {
    var n := DigitsValue(d);
    var c := d[|d| - 1];
    if |d| == 1 {
      assert d == [c];
    } else {
      var prefix := d[..|d| - 1];
      NonZeroLeadReadsPositive(prefix);
      CanonicalDecimalUnique(prefix);
      var a := DigitsValue(prefix);
      assert n == a * 10 + DigitValue(c);
      assert n / 10 == a && n % 10 == DigitValue(c);
      assert d == prefix + [c];
    }
  }

  /** The longest prefix of s made of decimal digits. */
  function LeadingDigits(s: string): (d: string)
    ensures AllDigits(d) && d <= s
  {
    if s == [] || !IsDigit(s[0]) then [] else [s[0]] + LeadingDigits(s[1..])
  }

  lemma {:induction false} LeadingDigitsOfNumber(d: string, rest: string)
    requires AllDigits(d)
    requires rest == [] || !IsDigit(rest[0])
    ensures LeadingDigits(d + rest) == d
  {
    if d != [] {
      assert (d + rest)[1..] == d[1..] + rest;
      LeadingDigitsOfNumber(d[1..], rest);
    } else {
      assert d + rest == rest;
    }
  }

  // ---------------------------------------------------------------------------
  // Text in the big circle

  const PLACEHOLDER: string := "---"

  /** Kotlin's Char.isWhitespace: the Unicode space, line and paragraph separators
      and the controls U+0009..U+000D and U+001C..U+001F. */
  predicate IsWhitespace(c: char) {
    var n := c as int;
    n == 0x20 || (0x09 <= n <= 0x0D) || (0x1C <= n <= 0x1F) || n == 0xA0 || n == 0x1680
    || (0x2000 <= n <= 0x200A) || n == 0x2028 || n == 0x2029 || n == 0x202F || n == 0x205F || n == 0x3000
  }

  /** Kotlin's String.isBlank. */
  predicate IsBlank(s: string) {
    forall i :: 0 <= i < |s| ==> IsWhitespace(s[i])
  }

  /** The unit follows the value after one space, unless it is blank. */
  function UnitSuffix(unit: string): (suffix: string)
    ensures suffix == "" <==> IsBlank(unit)
    ensures suffix != "" ==> suffix[0] == ' ' && suffix[1..] == unit
  {
    if IsBlank(unit) then "" else " " + unit
  }

  /** The value text of drawBigCircleText. */
  function ValueTextFor(active: bool, value: int, unit: string): (text: string)
    ensures text == PLACEHOLDER <==> !ValueShown(active, value)
  {
    if ValueShown(active, value) then
      var digits := NatToString(value);
      assert (digits + UnitSuffix(unit))[0] == digits[0];
      digits + UnitSuffix(unit)
    else
      PLACEHOLDER
  }

  /** A shown text starts with the value in canonical decimal form and then holds nothing
      but the unit suffix. */
  lemma ValueTextReadsBack(active: bool, value: int, unit: string)
    requires ValueShown(active, value)
    ensures var text := ValueTextFor(active, value, unit);
            IsCanonicalDecimal(LeadingDigits(text))
            && DigitsValue(LeadingDigits(text)) == value
            && text == LeadingDigits(text) + UnitSuffix(unit)
  {
    LeadingDigitsOfNumber(NatToString(value), UnitSuffix(unit));
    NatToStringRoundTrip(value);
  }

  // ---------------------------------------------------------------------------
  // End cap

  /** The rounded cap at the arc's far end: onDraw draws nothing before setup (range < 0),
      the value arc only for a shown value, and the cap inside it only on a full sweep. */
  predicate DrawsEndCap(range: int, active: bool, value: int, currentAngle: int) {
    range >= 0 && ValueShown(active, value) && currentAngle == FULL_SWEEP
  }

  /** Once the needle of an active gauge has settled on a value's angle, the end cap is
      drawn exactly when the value is the top of the range. */
  lemma EndCapIffValueAtRange(active: bool, value: int, range: int)
    requires active && 1 <= range && InRange(value, range)
    ensures DrawsEndCap(range, active, value, CentiDegreeAngle(value, range)) <==> value == range
  {
    AngleFullSweepIff(value, range);
  }
}

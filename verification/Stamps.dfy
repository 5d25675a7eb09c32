/**
  Time stamps as text (crates/silta/src/time.rs, crates/siltad/src/backup.rs,
  crates/silta-session/src/state.rs) and their order as strings.
 */
module Stamps {
  import opened Calendar
  import opened Prelude

  // ------------------------------------------------------------------------------------
  // Decimal numbers

  function Zeros(n: nat): string {
    seq(n, _ => '0')
  }

  /** A number with at least `width` digits, as a `{:0width}` placeholder writes it. */
  function Padded(n: nat, width: nat): string {
    var s := Decimal(n);
    if |s| >= width then s else Zeros(width - |s|) + s
  }

  /** The last `width` digits of a number. */
  function Fixed(n: nat, width: nat): (s: string)
    ensures |s| == width
  {
    if width == 0 then [] else Fixed(n / 10, width - 1) + [Digit(n % 10)]
  }

  function Pow10(n: nat): nat {
    if n == 0 then 1 else 10 * Pow10(n - 1)
  }

  lemma {:induction false} FixedZero(width: nat)
    ensures Fixed(0, width) == Zeros(width)
  {
    if width > 0 {
      FixedZero(width - 1);
    }
  }

  lemma {:induction false} PaddedIsFixed(n: nat, width: nat)
    requires width > 0 && n < Pow10(width)
    ensures Padded(n, width) == Fixed(n, width) && |Decimal(n)| <= width
  {
    if n < 10 {
      assert n / 10 == 0;
      FixedZero(width - 1);
    } else {
      PaddedIsFixed(n / 10, width - 1);
    }
  }

  lemma {:induction false} LongDecimal(n: nat, width: nat)
    requires n >= Pow10(width)
    ensures |Decimal(n)| > width
  {
    if width > 0 {
      PowPositive(width - 1);
      LongDecimal(n / 10, width - 1);
    }
  }

  lemma {:induction false} PowPositive(width: nat)
    ensures Pow10(width) >= 1
  {
    if width > 0 {
      PowPositive(width - 1);
    }
  }

  // ------------------------------------------------------------------------------------
  // The order of strings

  predicate Less(s: string, t: string) {
    if t == [] then false
    else if s == [] then true
    else if s[0] != t[0] then s[0] < t[0]
    else Less(s[1..], t[1..])
  }

  lemma {:induction false} LessAppend(a: string, b: string, s: string, t: string)
    requires |a| == |b|
    ensures Less(a + s, b + t) <==> Less(a, b) || (a == b && Less(s, t))
  {
    if a == [] {
      assert a + s == s && b + t == t;
    } else {
      assert (a + s)[1..] == a[1..] + s && (b + t)[1..] == b[1..] + t;
      LessAppend(a[1..], b[1..], s, t);
      assert a == [a[0]] + a[1..] && b == [b[0]] + b[1..];
    }
  }

  lemma {:induction false} LessIrreflexive(s: string)
    ensures !Less(s, s)
  {
    if s != [] {
      LessIrreflexive(s[1..]);
    }
  }

  lemma {:induction false} LessTransitive(r: string, s: string, t: string)
    requires Less(r, s) && Less(s, t)
    ensures Less(r, t)
  {
    if r != [] && r[0] == s[0] == t[0] {
      LessTransitive(r[1..], s[1..], t[1..]);
    }
  }

  lemma {:induction false} LessTotal(s: string, t: string)
    ensures Less(s, t) || Less(t, s) || s == t
  {
    if s != [] && t != [] && s[0] == t[0] {
      LessTotal(s[1..], t[1..]);
      assert s == [s[0]] + s[1..] && t == [t[0]] + t[1..];
    }
  }

  /** Numbers of a fixed width sort as numbers. */
  lemma {:induction false} FixedOrder(a: nat, b: nat, width: nat)
    requires a < Pow10(width) && b < Pow10(width)
    ensures Less(Fixed(a, width), Fixed(b, width)) <==> a < b
    ensures Fixed(a, width) == Fixed(b, width) <==> a == b
  {
    if width > 0 {
      FixedOrder(a / 10, b / 10, width - 1);
      var x, y := Fixed(a / 10, width - 1), Fixed(b / 10, width - 1);
      var p, q := Digit(a % 10), Digit(b % 10);
      LessAppend(x, y, [p], [q]);
      assert Less([p], [q]) <==> p < q;
      assert (x + [p])[..width - 1] == x && (y + [q])[..width - 1] == y;
      assert (x + [p])[width - 1] == p && (y + [q])[width - 1] == q;
    }
  }

  lemma FieldOrder(a: nat, b: nat, width: nat, s: string, t: string)
    requires width > 0 && a < Pow10(width) && b < Pow10(width)
    ensures Less(Padded(a, width) + s, Padded(b, width) + t) <==> a < b || (a == b && Less(s, t))
  {
    hide Padded, Less;
    PaddedIsFixed(a, width);
    PaddedIsFixed(b, width);
    LessAppend(Fixed(a, width), Fixed(b, width), s, t);
    FixedOrder(a, b, width);
  }

  lemma SeparatorOrder(c: char, s: string, t: string)
    ensures Less([c] + s, [c] + t) <==> Less(s, t)
  {
    assert ([c] + s)[1..] == s && ([c] + t)[1..] == t;
  }

  // ------------------------------------------------------------------------------------
  // The stamp

  lemma CivilIsPositive(days: nat)
    ensures CivilFromDays(days).year >= 1970 && 1 <= CivilFromDays(days).month <= 12 && 1 <= CivilFromDays(days).day <= 31
  {
    Ranges(days);
    Epoch();
    hide CivilFromDays;
    if days > 0 {
      CivilOrder(0, days);
    }
  }

  function DayOf(millis: nat): nat {
    millis / 1000 / 86_400
  }

  function DateOf(millis: nat): Date {
    CivilFromDays(DayOf(millis))
  }

  /** Three numbers with a separator between them and a letter at the end. */
  function Fields(width: nat, separator: char, end: char, x: nat, y: nat, z: nat): string {
    Padded(x, width) + ([separator] + (Padded(y, 2) + ([separator] + (Padded(z, 2) + [end]))))
  }

  function ClockText(colon: char, rem: nat): string {
    Fields(2, colon, 'Z', rem / 3600, rem % 3600 / 60, rem % 60)
  }

  function DateText(date: Date): string
    requires date.year >= 0 && date.month >= 0 && date.day >= 0
  {
    Fields(4, '-', 'T', date.year, date.month, date.day)
  }

  function TimeText(colon: char, millis: nat): string {
    CivilIsPositive(DayOf(millis));
    DateText(DateOf(millis)) + ClockText(colon, millis / 1000 % 86_400)
  }

  function Rfc3339(millis: nat): string {
    TimeText(':', millis)
  }

  /** Before the first moment of the year 10000. */
  predicate FourDigitYear(millis: nat) {
    millis < 253_402_300_800_000
  }

  lemma FourDigits(millis: nat)
    ensures FourDigitYear(millis) <==> DateOf(millis).year <= 9999
  {
    hide CivilFromDays;
    LastDays();
    var last := 2_932_896;
    if DayOf(millis) < last {
      CivilOrder(DayOf(millis), last);
    } else if DayOf(millis) > last + 1 {
      CivilOrder(last + 1, DayOf(millis));
    }
  }

  lemma SmallPowers()
    ensures Pow10(2) == 100 && Pow10(4) == 10_000
  {
    assert Pow10(1) == 10 && Pow10(3) == 1000;
  }

  lemma Regroup(a: string, b: string, c: string, d: string, e: string, f: string, s: string)
    ensures (a + (b + (c + (d + (e + f))))) + s == a + (b + (c + (d + (e + (f + s)))))
  {
  }

  predicate Triple(x: nat, y: nat, z: nat, x': nat, y': nat, z': nat) {
    x < x' || (x == x' && (y < y' || (y == y' && z < z')))
  }

  lemma FieldsOrder(
      width: nat, separator: char, end: char, x: nat, y: nat, z: nat, x': nat, y': nat, z': nat, s: string, t: string)
    requires width > 0 && x < Pow10(width) && x' < Pow10(width) && y < 100 && y' < 100 && z < 100 && z' < 100
    ensures Less(Fields(width, separator, end, x, y, z) + s, Fields(width, separator, end, x', y', z') + t) <==>
            Triple(x, y, z, x', y', z') || (x == x' && y == y' && z == z' && Less(s, t))
  {
    hide Less, Padded, Pow10;
    SmallPowers();
    var c: string, e: string := [separator], [end];
    Regroup(Padded(x, width), c, Padded(y, 2), c, Padded(z, 2), e, s);
    Regroup(Padded(x', width), c, Padded(y', 2), c, Padded(z', 2), e, t);
    SeparatorOrder(end, s, t);
    var z1, z2 := Padded(z, 2) + (e + s), Padded(z', 2) + (e + t);
    FieldOrder(z, z', 2, e + s, e + t);
    SeparatorOrder(separator, z1, z2);
    var y1, y2 := Padded(y, 2) + (c + z1), Padded(y', 2) + (c + z2);
    FieldOrder(y, y', 2, c + z1, c + z2);
    SeparatorOrder(separator, y1, y2);
    FieldOrder(x, x', width, c + y1, c + y2);
  }

  lemma ClockOrder(colon: char, p: nat, q: nat, s: string, t: string)
    requires p < 86_400 && q < 86_400
    ensures Less(ClockText(colon, p) + s, ClockText(colon, q) + t) <==> p < q || (p == q && Less(s, t))
  {
    hide Less, Fields;
    SmallPowers();
    FieldsOrder(2, colon, 'Z', p / 3600, p % 3600 / 60, p % 60, q / 3600, q % 3600 / 60, q % 60, s, t);
    ClockParts(p, q);
  }

  lemma ClockParts(p: nat, q: nat)
    ensures Triple(p / 3600, p % 3600 / 60, p % 60, q / 3600, q % 3600 / 60, q % 60) <==> p < q
  {
    ClockAdds(p);
    ClockAdds(q);
    PartsOrder(p / 3600, p % 3600 / 60, p % 60, q / 3600, q % 3600 / 60, q % 60);
  }

  lemma PartsOrder(x: nat, y: nat, z: nat, x': nat, y': nat, z': nat)
    requires y < 60 && z < 60 && y' < 60 && z' < 60
    ensures Triple(x, y, z, x', y', z') <==> 3600 * x + 60 * y + z < 3600 * x' + 60 * y' + z'
  {
  }

  /** Stamps of years up to 9999, whatever follows them, sort by the second they name. */
  lemma StampOrder(colon: char, a: nat, b: nat, s: string, t: string)
    requires FourDigitYear(a) && FourDigitYear(b)
    ensures Less(TimeText(colon, a) + s, TimeText(colon, b) + t) <==>
            a / 1000 < b / 1000 || (a / 1000 == b / 1000 && Less(s, t))
  {
    hide Less, CivilFromDays, ClockText, Fields;
    SmallPowers();
    FourDigits(a);
    FourDigits(b);
    CivilIsPositive(DayOf(a));
    CivilIsPositive(DayOf(b));
    var d, e, p, q := DateOf(a), DateOf(b), a / 1000 % 86_400, b / 1000 % 86_400;
    assert TimeText(colon, a) + s == DateText(d) + (ClockText(colon, p) + s);
    assert TimeText(colon, b) + t == DateText(e) + (ClockText(colon, q) + t);
    FieldsOrder(4, '-', 'T', d.year, d.month, d.day, e.year, e.month, e.day, ClockText(colon, p) + s, ClockText(colon, q) + t);
    ClockOrder(colon, p, q, s, t);
    if DayOf(a) < DayOf(b) {
      CivilOrder(DayOf(a), DayOf(b));
    } else if DayOf(b) < DayOf(a) {
      CivilOrder(DayOf(b), DayOf(a));
    }
  }

  lemma StampsEqual(colon: char, a: nat, b: nat)
    requires FourDigitYear(a) && FourDigitYear(b)
    ensures TimeText(colon, a) == TimeText(colon, b) <==> a / 1000 == b / 1000
    ensures Less(TimeText(colon, a), TimeText(colon, b)) <==> a / 1000 < b / 1000
  {
    hide Less, CivilFromDays, TimeText;
    StampOrder(colon, a, b, [], []);
    StampOrder(colon, b, a, [], []);
    LessIrreflexive([]);
    assert TimeText(colon, a) + [] == TimeText(colon, a) && TimeText(colon, b) + [] == TimeText(colon, b);
    LessIrreflexive(TimeText(colon, a));
    LessTotal(TimeText(colon, a), TimeText(colon, b));
  }

  // ------------------------------------------------------------------------------------
  // A stamp read back

  /** The number that decimal digits stand for. */
  function ValueOf(digits: string): nat {
    if digits == [] then 0
    else 10 * ValueOf(digits[..|digits| - 1]) + (if digits[|digits| - 1] >= '0' then digits[|digits| - 1] as int - '0' as int else 0)
  }

  lemma {:induction false} FixedValue(n: nat, width: nat)
    requires n < Pow10(width)
    ensures ValueOf(Fixed(n, width)) == n
  {
    if width > 0 {
      FixedValue(n / 10, width - 1);
      assert Fixed(n, width)[..width - 1] == Fixed(n / 10, width - 1);
    }
  }

  /** The seconds since 1970 that a stamp names, read field by field. */
  function SecondsOf(text: string): int
    requires |text| == 20
  {
    86_400 * DayNumber(Date(ValueOf(text[0..4]), ValueOf(text[5..7]), ValueOf(text[8..10])))
    + 3600 * ValueOf(text[11..13]) + 60 * ValueOf(text[14..16]) + ValueOf(text[17..19])
  }

  lemma FieldsReadBack(width: nat, separator: char, end: char, x: nat, y: nat, z: nat)
    requires width > 0 && x < Pow10(width) && y < 100 && z < 100
    ensures var s := Fields(width, separator, end, x, y, z);
            && |s| == width + 7 && s[width] == s[width + 3] == separator && s[width + 6] == end
            && ValueOf(s[0..width]) == x && ValueOf(s[width + 1..width + 3]) == y && ValueOf(s[width + 4..width + 6]) == z
  {
    hide Padded, Pow10, ValueOf;
    SmallPowers();
    PaddedIsFixed(x, width);
    PaddedIsFixed(y, 2);
    PaddedIsFixed(z, 2);
    FixedValue(x, width);
    FixedValue(y, 2);
    FixedValue(z, 2);
    var s := Fields(width, separator, end, x, y, z);
    assert s[0..width] == Fixed(x, width);
    assert s[width + 1..width + 3] == Fixed(y, 2) && s[width + 4..width + 6] == Fixed(z, 2);
  }

  lemma SlicesOfSum(a: string, b: string, i: nat, j: nat)
    requires i <= j
    ensures j <= |a| ==> (a + b)[i..j] == a[i..j]
    ensures j <= |b| ==> (a + b)[|a| + i..|a| + j] == b[i..j]
  {
  }

  /** A stamp has the form of RFC 3339, and read field by field names the second it was made from. */
  lemma StampReadsBack(millis: nat)
    requires FourDigitYear(millis)
    ensures var s := Rfc3339(millis);
            && |s| == 20 && s[4] == s[7] == '-' && s[10] == 'T' && s[13] == s[16] == ':' && s[19] == 'Z'
            && SecondsOf(s) == millis / 1000
  {
    hide Fields, CivilFromDays, DayNumber, ValueOf;
    SmallPowers();
    FourDigits(millis);
    CivilIsPositive(DayOf(millis));
    CivilHasItsNumber(DayOf(millis));
    var date, rem := DateOf(millis), millis / 1000 % 86_400;
    FieldsReadBack(4, '-', 'T', date.year, date.month, date.day);
    FieldsReadBack(2, ':', 'Z', rem / 3600, rem % 3600 / 60, rem % 60);
    var a, b := DateText(date), ClockText(':', rem);
    SlicesOfSum(a, b, 0, 4);
    SlicesOfSum(a, b, 5, 7);
    SlicesOfSum(a, b, 8, 10);
    SlicesOfSum(a, b, 0, 2);
    SlicesOfSum(a, b, 3, 5);
    SlicesOfSum(a, b, 6, 8);
    ClockAdds(rem);
  }

  lemma ClockAdds(rem: nat)
    ensures rem == 3600 * (rem / 3600) + 60 * (rem % 3600 / 60) + rem % 60
    ensures rem % 3600 / 60 < 60 && rem % 60 < 60
  {
    var h, m := rem / 3600, rem % 3600;
    var k, z := m / 60, m % 60;
    assert rem == 3600 * h + m && m == 60 * k + z;
    SecondsOfMinute(60 * h + k, z);
  }

  lemma SecondsOfMinute(minutes: nat, seconds: nat)
    requires seconds < 60
    ensures (60 * minutes + seconds) % 60 == seconds
  {
  }

  // ------------------------------------------------------------------------------------
  // Names of backup copies

  function Replace(s: string, from: char, to: char): (r: string) {
    seq(|s|, i requires 0 <= i < |s| => if s[i] == from then to else s[i])
  }

  /** The name of a backup copy. */
  function Stamp(millis: nat): string {
    Replace(Rfc3339(millis), ':', '-')
  }

  predicate StampChar(c: char) {
    '0' <= c <= '9' || c == '-' || c == 'T' || c == 'Z'
  }

  predicate IsStamp(name: string) {
    |name| == 20 && name[19] == 'Z' && forall i :: 0 <= i < |name| ==> StampChar(name[i])
  }

  predicate AllDigits(s: string) {
    forall i :: 0 <= i < |s| ==> '0' <= s[i] <= '9'
  }

  lemma {:induction false} DecimalDigits(n: nat)
    ensures AllDigits(Decimal(n))
  {
    if n >= 10 {
      DecimalDigits(n / 10);
    }
  }

  lemma PaddedDigits(n: nat, width: nat)
    ensures AllDigits(Padded(n, width)) && |Padded(n, width)| >= width
    ensures width > 0 ==> (|Padded(n, width)| == width <==> n < Pow10(width))
  {
    DecimalDigits(n);
    if width > 0 {
      if n < Pow10(width) {
        PaddedIsFixed(n, width);
      } else {
        LongDecimal(n, width);
      }
    }
  }

  lemma ReplaceSum(s: string, t: string, from: char, to: char)
    ensures Replace(s + t, from, to) == Replace(s, from, to) + Replace(t, from, to)
  {
  }

  lemma ReplaceDigits(s: string)
    requires AllDigits(s)
    ensures Replace(s, ':', '-') == s
  {
  }

  lemma ReplaceFields(width: nat, separator: char, end: char, x: nat, y: nat, z: nat)
    requires (separator == ':' || separator == '-') && end != ':'
    ensures Replace(Fields(width, separator, end, x, y, z), ':', '-') == Fields(width, '-', end, x, y, z)
  {
    hide Padded, AllDigits, Replace;
    var c: string, e: string := [separator], [end];
    PaddedDigits(x, width);
    PaddedDigits(y, 2);
    PaddedDigits(z, 2);
    ReplaceDigits(Padded(x, width));
    ReplaceDigits(Padded(y, 2));
    ReplaceDigits(Padded(z, 2));
    ReplaceOne(separator);
    ReplaceOne(end);
    ReplaceSum(Padded(z, 2), e, ':', '-');
    ReplaceSum(c, Padded(z, 2) + e, ':', '-');
    ReplaceSum(Padded(y, 2), c + (Padded(z, 2) + e), ':', '-');
    ReplaceSum(c, Padded(y, 2) + (c + (Padded(z, 2) + e)), ':', '-');
    ReplaceSum(Padded(x, width), c + (Padded(y, 2) + (c + (Padded(z, 2) + e))), ':', '-');
  }

  lemma ReplaceOne(c: char)
    ensures Replace([c], ':', '-') == [if c == ':' then '-' else c]
  {
  }

  /** The name of a copy is the stamp written with hyphens. */
  lemma StampIsText(millis: nat)
    ensures Stamp(millis) == TimeText('-', millis)
  {
    hide Fields, Replace, CivilFromDays;
    CivilIsPositive(DayOf(millis));
    var date, rem := DateOf(millis), millis / 1000 % 86_400;
    ReplaceSum(DateText(date), ClockText(':', rem), ':', '-');
    ReplaceFields(4, '-', 'T', date.year, date.month, date.day);
    ReplaceFields(2, ':', 'Z', rem / 3600, rem % 3600 / 60, rem % 60);
  }

  lemma FieldsShape(width: nat, end: char, x: nat, y: nat, z: nat)
    requires width > 0 && y < 100 && z < 100 && StampChar(end)
    ensures var s := Fields(width, '-', end, x, y, z);
            && |s| >= width + 7 && (|s| == width + 7 <==> x < Pow10(width)) && s[|s| - 1] == end
            && forall i :: 0 <= i < |s| ==> StampChar(s[i])
  {
    hide Padded, Pow10;
    SmallPowers();
    PaddedDigits(x, width);
    PaddedDigits(y, 2);
    PaddedDigits(z, 2);
  }

  /** A copy is named by a stamp, and so is made and pruned, exactly up to the year 9999. */
  lemma StampIsStamp(millis: nat)
    ensures IsStamp(Stamp(millis)) <==> FourDigitYear(millis)
  {
    hide Stamp, Fields, CivilFromDays;
    FourDigits(millis);
    StampIsText(millis);
    CivilIsPositive(DayOf(millis));
    SmallPowers();
    var date, rem := DateOf(millis), millis / 1000 % 86_400;
    FieldsShape(4, 'T', date.year, date.month, date.day);
    FieldsShape(2, 'Z', rem / 3600, rem % 3600 / 60, rem % 60);
  }

  /** Names of copies sort in the order of time. */
  lemma CopiesSortByTime(a: nat, b: nat)
    requires FourDigitYear(a) && FourDigitYear(b)
    ensures Less(Stamp(a), Stamp(b)) <==> a / 1000 < b / 1000
    ensures Stamp(a) == Stamp(b) <==> a / 1000 == b / 1000
  {
    hide Stamp, TimeText, IsStamp, Less, CivilFromDays;
    StampIsText(a);
    StampIsText(b);
    StampsEqual('-', a, b);
  }

  /** The first moment of the year 10000 sorts before the moment it follows. */
  lemma TenThousandSortsFirst()
    ensures Less(Rfc3339(253_402_300_800_000), Rfc3339(253_402_300_799_000))
  {
    hide Less, Padded, TimeText, CivilFromDays;
    LastDays();
    FirstDigits();
    var s := TextStarts(':', 253_402_300_800_000);
    var t := TextStarts(':', 253_402_300_799_000);
    HeadOrder(Padded(10_000, 4), Padded(9999, 4), s, t);
  }

  lemma TextStarts(colon: char, millis: nat) returns (rest: string)
    ensures DateOf(millis).year >= 0 && TimeText(colon, millis) == Padded(DateOf(millis).year, 4) + rest
  {
    hide Padded, CivilFromDays, ClockText;
    CivilIsPositive(DayOf(millis));
    var date := DateOf(millis);
    rest := ['-'] + (Padded(date.month, 2) + (['-'] + (Padded(date.day, 2) + ['T'])))
            + ClockText(colon, millis / 1000 % 86_400);
  }

  lemma FirstDigits()
    ensures |Padded(10_000, 4)| == 5 && Padded(10_000, 4)[0] == '1'
    ensures |Padded(9999, 4)| == 4 && Padded(9999, 4)[0] == '9'
  {
    assert Decimal(1) == "1" && Decimal(10) == "10" && Decimal(100) == "100" && Decimal(1000) == "1000";
    assert Decimal(9) == "9" && Decimal(99) == "99" && Decimal(999) == "999";
  }

  lemma LastDays()
    ensures CivilFromDays(2_932_897) == Date(10_000, 1, 1) && CivilFromDays(2_932_896) == Date(9999, 12, 31)
  {
    hide CivilFromDays;
    CivilExactly(2_932_897, Date(10_000, 1, 1));
    CivilExactly(2_932_896, Date(9999, 12, 31));
  }

  lemma HeadOrder(a: string, b: string, s: string, t: string)
    requires a != [] && b != [] && a[0] < b[0]
    ensures Less(a + s, b + t)
  {
  }

  // ------------------------------------------------------------------------------------
  // Names of snapshots

  datatype Snapshot = Snapshot(millis: nat, moment: Moment)

  function MomentText(moment: Moment): string {
    if moment.BeforeHandoff? then "-before-handoff" else "-after-handoff"
  }

  function SnapshotName(s: Snapshot): string {
    Rfc3339(s.millis) + MomentText(s.moment)
  }

  lemma MomentOrder(a: Moment, b: Moment)
    ensures Less(MomentText(a), MomentText(b)) <==> a.AfterHandoff? && b.BeforeHandoff?
  {
    var x, y := MomentText(a), MomentText(b);
    if a == b {
      LessIrreflexive(x);
    } else {
      assert x[0] == y[0] && x[1..][0] == x[1] && y[1..][0] == y[1];
    }
  }

  /**
    Snapshots sort by the second and, within one second, the one after the handoff before the
    one before it.
   */
  lemma SnapshotOrder(a: Snapshot, b: Snapshot)
    requires FourDigitYear(a.millis) && FourDigitYear(b.millis)
    ensures Less(SnapshotName(a), SnapshotName(b)) <==>
            || a.millis / 1000 < b.millis / 1000
            || (a.millis / 1000 == b.millis / 1000 && a.moment.AfterHandoff? && b.moment.BeforeHandoff?)
  {
    hide Less, TimeText, MomentText, CivilFromDays;
    StampOrder(':', a.millis, b.millis, MomentText(a.moment), MomentText(b.moment));
    MomentOrder(a.moment, b.moment);
  }
}

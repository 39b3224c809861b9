/** How moments are stored as text (`_iso_utc`) and read back (`_parse_dt`), and why comparing the
    text, as the SQL does, compares the moments. */
module Timestamps {
  import opened Calendars
  import opened Options
  import opened Units

  /** The fields of a `datetime`. */
  datatype Fields = Fields(date: Date, hour: int, minute: int, second: int, micro: int)

  predicate ValidFields(f: Fields) {
    ValidDate(f.date) && 0 <= f.hour < 24 && 0 <= f.minute < 60 && 0 <= f.second < 60 && 0 <= f.micro < SECOND
  }

  /** A `datetime` without a time zone, or with the offset of its zone. */
  datatype DateTime = Naive(fields: Fields) | Aware(fields: Fields, offset: int)

  function TimeOfDay(f: Fields): int {
    f.hour * HOUR + f.minute * MINUTE + f.second * SECOND + f.micro
  }

  /** Microseconds since the start of year 1, of fields taken as UTC. */
  function Instant(f: Fields): int {
    (Ordinal(f.date) - 1) * DAY + TimeOfDay(f)
  }

  /** The moment of a value; a naive one counts as UTC. */
  function Moment(v: DateTime): int {
    match v
    case Naive(f) => Instant(f)
    case Aware(f, offset) => Instant(f) - offset
  }

  const MAX_INSTANT: int := MAX_ORDINAL * DAY

  /** `astimezone(UTC)` stays within the years 1 to 9999. */
  predicate Representable(v: DateTime) {
    ValidFields(v.fields) && 0 <= Moment(v) < MAX_INSTANT
  }

  lemma SplitTime(t: int)
    requires 0 <= t < DAY
    ensures 0 <= t / HOUR < 24 && 0 <= t % HOUR / MINUTE < 60 && 0 <= t % MINUTE / SECOND < 60
    ensures t / HOUR * HOUR + t % HOUR / MINUTE * MINUTE + t % MINUTE / SECOND * SECOND + t % SECOND == t
  {
    var a, b := t % HOUR, t % MINUTE;
    assert t == t / HOUR * HOUR + a;
    assert a % MINUTE == b;
    assert a == a / MINUTE * MINUTE + b;
    assert b % SECOND == t % SECOND;
    assert b == b / SECOND * SECOND + b % SECOND;
  }

  /** The fields of a day at a time of that day. */
  function FieldsAt(d: Date, t: int): (f: Fields)
    requires ValidDate(d) && 0 <= t < DAY
    ensures ValidFields(f) && f.date == d && TimeOfDay(f) == t
  {
    SplitTime(t);
    Fields(d, t / HOUR, t % HOUR / MINUTE, t % MINUTE / SECOND, t % SECOND)
  }

  /** The UTC fields of a moment. */
  ghost function FieldsOf(x: int): (f: Fields)
    requires 0 <= x < MAX_INSTANT
    ensures ValidFields(f) && Instant(f) == x
  {
    DateOfIsValid(x / DAY + 1);
    FieldsAt(DateOf(x / DAY + 1), x % DAY)
  }

  predicate FieldsLess(a: Fields, b: Fields) {
    DateLess(a.date, b.date) || (a.date == b.date && TimeOfDay(a) < TimeOfDay(b))
  }

  lemma DayThenTime(m: int, n: int, s: int, t: int)
    requires 0 <= s < DAY && 0 <= t < DAY
    ensures m * DAY + s < n * DAY + t <==> m < n || (m == n && s < t)
  {
    if m < n {
      assert (n - m) * DAY >= DAY;
    } else if n < m {
      assert (m - n) * DAY >= DAY;
    }
  }

  lemma TimeFitsDay(f: Fields)
    requires ValidFields(f)
    ensures 0 <= TimeOfDay(f) < DAY
  {
  }

  lemma InstantsFollowFields(a: Fields, b: Fields)
    requires ValidFields(a) && ValidFields(b)
    ensures FieldsLess(a, b) <==> Instant(a) < Instant(b)
  {
    TimeFitsDay(a);
    TimeFitsDay(b);
    DayThenTime(Ordinal(a.date) - 1, Ordinal(b.date) - 1, TimeOfDay(a), TimeOfDay(b));
    SameOrdinal(a.date, b.date);
  }

  lemma SameOrdinal(a: Date, b: Date)
    requires ValidDate(a) && ValidDate(b)
    ensures DateLess(a, b) <==> Ordinal(a) < Ordinal(b)
    ensures a == b <==> Ordinal(a) == Ordinal(b)
  {
    OrdinalsFollowDates(a, b);
    OrdinalsFollowDates(b, a);
  }

  predicate TimeLess(a: Fields, b: Fields) {
    || a.hour < b.hour
    || (a.hour == b.hour && a.minute < b.minute)
    || (a.hour == b.hour && a.minute == b.minute && a.second < b.second)
    || (a.hour == b.hour && a.minute == b.minute && a.second == b.second && a.micro < b.micro)
  }

  lemma TimesFollowClock(a: Fields, b: Fields)
    requires ValidFields(a) && ValidFields(b)
    ensures TimeLess(a, b) <==> TimeOfDay(a) < TimeOfDay(b)
  {
  }

  // ----------------------------------------------------------------- printing

  function Digit(n: int): char
    requires 0 <= n < 10
  {
    ('0' as int + n) as char
  }

  /** n in exactly `width` decimal digits. */
  function Pad(n: nat, width: nat): string {
    if width == 0 then "" else Pad(n / 10, width - 1) + [Digit(n % 10)]
  }

  function Pow10(n: nat): nat {
    if n == 0 then 1 else 10 * Pow10(n - 1)
  }

  /** A number of fixed width, a separator, the rest. */
  function Block(n: nat, width: nat, sep: char, rest: string): string {
    Pad(n, width) + [sep] + rest
  }

  const UTC_OFFSET: string := "+00:00"

  /** `isoformat` leaves out a fraction of zero. */
  function FractionText(micro: nat): string {
    if micro == 0 then UTC_OFFSET else "." + Pad(micro, 6) + UTC_OFFSET
  }

  function TimeText(f: Fields): string
    requires ValidFields(f)
  {
    Block(f.hour, 2, ':', Block(f.minute, 2, ':', Pad(f.second, 2) + FractionText(f.micro)))
  }

  /** `isoformat()` of UTC fields. */
  function IsoText(f: Fields): string
    requires ValidFields(f)
  {
    Block(f.date.year, 4, '-', Block(f.date.month, 2, '-', Block(f.date.day, 2, 'T', TimeText(f))))
  }

  /** `_iso_utc`. */
  ghost function IsoUtc(v: Option<DateTime>): Option<string>
    requires v.Some? ==> Representable(v.value)
  {
    match v
    case None => None
    case Some(d) => Some(IsoText(FieldsOf(Moment(d))))
  }

  // -------------------------------------------------------------- text order

  /** SQLite's default order of text: character by character, a prefix first. */
  predicate TextLess(a: string, b: string) {
    b != [] && (a == [] || a[0] < b[0] || (a[0] == b[0] && TextLess(a[1..], b[1..])))
  }

  /** Texts with heads of one length compare by their heads first. */
  lemma {:induction false} HeadsFirst(u: string, v: string, x: string, y: string)
    requires |u| == |v|
    ensures TextLess(u + x, v + y) <==> TextLess(u, v) || (u == v && TextLess(x, y))
  {
    if u == [] {
      assert u + x == x && v + y == y;
    } else {
      assert (u + x)[1..] == u[1..] + x && (v + y)[1..] == v[1..] + y;
      assert u == [u[0]] + u[1..] && v == [v[0]] + v[1..];
      HeadsFirst(u[1..], v[1..], x, y);
    }
  }

  /** Padded numbers compare like numbers. */
  lemma {:induction false} PadOrder(m: nat, n: nat, width: nat)
    requires m < Pow10(width) && n < Pow10(width)
    ensures |Pad(m, width)| == |Pad(n, width)| == width
    ensures TextLess(Pad(m, width), Pad(n, width)) <==> m < n
    ensures Pad(m, width) == Pad(n, width) <==> m == n
  {
    if width > 0 {
      PadOrder(m / 10, n / 10, width - 1);
      var a, b := [Digit(m % 10)], [Digit(n % 10)];
      HeadsFirst(Pad(m / 10, width - 1), Pad(n / 10, width - 1), a, b);
      assert TextLess(a, b) <==> m % 10 < n % 10;
      assert Pad(m, width)[..width - 1] == Pad(m / 10, width - 1) &&
        Pad(n, width)[..width - 1] == Pad(n / 10, width - 1);
      assert Pad(m, width)[width - 1] == Digit(m % 10) && Pad(n, width)[width - 1] == Digit(n % 10);
    }
  }

  lemma BlockOrder(m: nat, n: nat, width: nat, sep: char, x: string, y: string)
    requires m < Pow10(width) && n < Pow10(width)
    ensures TextLess(Block(m, width, sep, x), Block(n, width, sep, y)) <==> m < n || (m == n && TextLess(x, y))
  {
    PadOrder(m, n, width);
    HeadsFirst(Pad(m, width) + [sep], Pad(n, width) + [sep], x, y);
    HeadsFirst(Pad(m, width), Pad(n, width), [sep], [sep]);
    assert (Pad(m, width) + [sep])[..width] == Pad(m, width) && (Pad(n, width) + [sep])[..width] == Pad(n, width);
  }

  lemma SameTextNotLess(a: string)
    ensures !TextLess(a, a)
  {
  }

  /** No fraction sorts before every fraction, since '+' comes before '.'. */
  lemma FractionOrder(m: nat, n: nat)
    requires m < SECOND && n < SECOND
    ensures TextLess(FractionText(m), FractionText(n)) <==> m < n
  {
    assert Pow10(6) == SECOND by {
      assert Pow10(3) == 1000;
    }
    if m > 0 && n > 0 {
      PadOrder(m, n, 6);
      var u, v := "." + Pad(m, 6), "." + Pad(n, 6);
      HeadsFirst(u, v, UTC_OFFSET, UTC_OFFSET);
      HeadsFirst(".", ".", Pad(m, 6), Pad(n, 6));
      SameTextNotLess(UTC_OFFSET);
      SameTextNotLess(".");
    } else {
      SameTextNotLess(UTC_OFFSET);
    }
  }

  lemma SecondsOrder(a: Fields, b: Fields)
    requires ValidFields(a) && ValidFields(b)
    ensures TextLess(Pad(a.second, 2) + FractionText(a.micro), Pad(b.second, 2) + FractionText(b.micro))
      <==> a.second < b.second || (a.second == b.second && a.micro < b.micro)
  {
    assert Pow10(2) == 100;
    PadOrder(a.second, b.second, 2);
    HeadsFirst(Pad(a.second, 2), Pad(b.second, 2), FractionText(a.micro), FractionText(b.micro));
    FractionOrder(a.micro, b.micro);
  }

  lemma TimeOrder(a: Fields, b: Fields)
    requires ValidFields(a) && ValidFields(b)
    ensures TextLess(TimeText(a), TimeText(b)) <==> TimeOfDay(a) < TimeOfDay(b)
  {
    assert Pow10(2) == 100;
    var x, y := Pad(a.second, 2) + FractionText(a.micro), Pad(b.second, 2) + FractionText(b.micro);
    TimesFollowClock(a, b);
    SecondsOrder(a, b);
    BlockOrder(a.minute, b.minute, 2, ':', x, y);
    BlockOrder(a.hour, b.hour, 2, ':', Block(a.minute, 2, ':', x), Block(b.minute, 2, ':', y));
  }

  lemma TextFollowsFields(a: Fields, b: Fields)
    requires ValidFields(a) && ValidFields(b)
    ensures TextLess(IsoText(a), IsoText(b)) <==> FieldsLess(a, b)
  {
    assert Pow10(2) == 100 && Pow10(4) == 10000;
    TimeOrder(a, b);
    var x, y := Block(a.date.day, 2, 'T', TimeText(a)), Block(b.date.day, 2, 'T', TimeText(b));
    BlockOrder(a.date.day, b.date.day, 2, 'T', TimeText(a), TimeText(b));
    BlockOrder(a.date.month, b.date.month, 2, '-', x, y);
    BlockOrder(a.date.year, b.date.year, 4, '-', Block(a.date.month, 2, '-', x), Block(b.date.month, 2, '-', y));
  }

  /** Comparing stored texts compares the moments, whatever the offsets of the values were. */
  lemma TextOrderIsTimeOrder(v: DateTime, w: DateTime)
    requires Representable(v) && Representable(w)
    ensures TextLess(IsoUtc(Some(v)).value, IsoUtc(Some(w)).value) <==> Moment(v) < Moment(w)
    ensures IsoUtc(Some(v)) == IsoUtc(Some(w)) <==> Moment(v) == Moment(w)
  {
    var a, b := FieldsOf(Moment(v)), FieldsOf(Moment(w));
    TextFollowsFields(a, b);
    TextFollowsFields(b, a);
    InstantsFollowFields(a, b);
    InstantsFollowFields(b, a);
    SameTextNotLess(IsoText(a));
  }

  // ------------------------------------------------------------------ parsing

  predicate IsDigit(c: char) {
    '0' <= c <= '9'
  }

  predicate AllDigits(s: string) {
    forall i :: 0 <= i < |s| ==> IsDigit(s[i])
  }

  function Value(s: string): nat
    requires AllDigits(s)
  {
    if s == "" then 0 else 10 * Value(s[..|s| - 1]) + (s[|s| - 1] as int - '0' as int)
  }

  /** A number of exactly `width` digits from the front, and the rest. */
  function TakeNumber(s: string, width: nat): Option<(nat, string)> {
    if |s| >= width && AllDigits(s[..width]) then Some((Value(s[..width]), s[width..])) else None
  }

  /** Such a number and a separator. */
  function TakeBlock(s: string, width: nat, sep: char): Option<(nat, string)> {
    match TakeNumber(s, width)
    case None => None
    case Some((n, rest)) => if rest != "" && rest[0] == sep then Some((n, rest[1..])) else None
  }

  /** `+HH:MM` or `-HH:MM`, and nothing after it. */
  function ParseOffset(s: string): Option<int> {
    if s == "" || s[0] !in {'+', '-'} then None
    else
      match TakeBlock(s[1..], 2, ':')
      case None => None
      case Some((h, rest)) =>
        match TakeNumber(rest, 2)
        case None => None
        case Some((m, end)) =>
          if end != "" || h >= 24 || m >= 60 then None
          else Some(if s[0] == '+' then h * HOUR + m * MINUTE else -(h * HOUR + m * MINUTE))
  }

  function ParseFraction(s: string): Option<(nat, string)> {
    if s != "" && s[0] == '.' then TakeNumber(s[1..], 6) else Some((0, s))
  }

  function ParseDate(s: string): Option<(Date, string)> {
    match TakeBlock(s, 4, '-')
    case None => None
    case Some((year, s1)) =>
      match TakeBlock(s1, 2, '-')
      case None => None
      case Some((month, s2)) =>
        match TakeBlock(s2, 2, 'T')
        case None => None
        case Some((day, s3)) => Some((Date(year, month, day), s3))
  }

  /** Hours, minutes, seconds and an optional fraction. */
  function ParseTime(s: string): Option<((nat, nat, nat, nat), string)> {
    match TakeBlock(s, 2, ':')
    case None => None
    case Some((hour, s1)) =>
      match TakeBlock(s1, 2, ':')
      case None => None
      case Some((minute, s2)) =>
        match TakeNumber(s2, 2)
        case None => None
        case Some((second, s3)) =>
          match ParseFraction(s3)
          case None => None
          case Some((micro, s4)) => Some(((hour, minute, second, micro), s4))
  }

  /** `fromisoformat` on the shape YYYY-MM-DDTHH:MM:SS[.ffffff]+HH:MM; None for its ValueError. */
  function FromIso(s: string): Option<DateTime> {
    match ParseDate(s)
    case None => None
    case Some((date, rest)) =>
      match ParseTime(rest)
      case None => None
      case Some(((hour, minute, second, micro), tail)) =>
        match ParseOffset(tail)
        case None => None
        case Some(offset) =>
          var f := Fields(date, hour, minute, second, micro);
          if ValidFields(f) then Some(Aware(f, offset)) else None
  }

  /** `value.replace(from, to, 1)` for characters. */
  function ReplaceFirst(s: string, from: char, to: char): string {
    if s == "" then ""
    else if s[0] == from then [to] + s[1..]
    else [s[0]] + ReplaceFirst(s[1..], from, to)
  }

  /** What `_parse_dt` makes of its text before reading it. */
  function Normalized(s: string): string {
    var t := ReplaceFirst(s, ' ', 'T');
    if t != "" && t[|t| - 1] == 'Z' then t[..|t| - 1] + UTC_OFFSET else t
  }

  datatype Parsed = Absent | Parsed(value: DateTime) | Malformed

  /** `_parse_dt`. */
  function ParseDt(value: Option<string>): Parsed {
    if value.None? || value.value == "" then Absent
    else
      match FromIso(Normalized(value.value))
      case None => Malformed
      case Some(v) => Parsed(v)
  }

  // --------------------------------------------------------------- round trip

  lemma {:induction false} ValueOfPad(n: nat, width: nat)
    requires n < Pow10(width)
    ensures |Pad(n, width)| == width && AllDigits(Pad(n, width)) && Value(Pad(n, width)) == n
  {
    if width > 0 {
      ValueOfPad(n / 10, width - 1);
      assert Pad(n, width)[..width - 1] == Pad(n / 10, width - 1);
    }
  }

  lemma TakePadded(n: nat, width: nat, rest: string)
    requires n < Pow10(width)
    ensures TakeNumber(Pad(n, width) + rest, width) == Some((n, rest))
  {
    ValueOfPad(n, width);
    var s := Pad(n, width) + rest;
    assert s[..width] == Pad(n, width) && s[width..] == rest;
  }

  lemma TakeBlocked(n: nat, width: nat, sep: char, rest: string)
    requires n < Pow10(width)
    ensures TakeBlock(Block(n, width, sep, rest), width, sep) == Some((n, rest))
  {
    assert Block(n, width, sep, rest) == Pad(n, width) + ([sep] + rest);
    TakePadded(n, width, [sep] + rest);
    assert ([sep] + rest)[1..] == rest;
  }

  /** The offsets that are written: `+00:00` and, tolerated, `Z`. */
  lemma OffsetIsZero()
    ensures ParseOffset(UTC_OFFSET) == Some(0)
  {
    assert UTC_OFFSET[1..] == Block(0, 2, ':', Pad(0, 2));
    assert Pow10(2) == 100;
    TakeBlocked(0, 2, ':', Pad(0, 2));
    assert Pad(0, 2) == Pad(0, 2) + "";
    TakePadded(0, 2, "");
  }

  /** The time of day as it is printed, without an offset. */
  function ClockText(f: Fields): string
    requires ValidFields(f)
  {
    var fraction := if f.micro == 0 then "" else "." + Pad(f.micro, 6);
    Block(f.hour, 2, ':', Block(f.minute, 2, ':', Pad(f.second, 2) + fraction))
  }

  lemma BlockThen(n: nat, width: nat, sep: char, rest: string, tail: string)
    ensures Block(n, width, sep, rest) + tail == Block(n, width, sep, rest + tail)
  {
  }

  lemma FractionIsRead(micro: nat, tail: string)
    requires micro < SECOND && tail != "" && tail[0] in {'+', '-'}
    ensures ParseFraction((if micro == 0 then "" else "." + Pad(micro, 6)) + tail) == Some((micro, tail))
  {
    if micro == 0 {
      assert "" + tail == tail;
    } else {
      assert Pow10(6) == SECOND by {
        assert Pow10(3) == 1000;
      }
      assert (("." + Pad(micro, 6)) + tail)[1..] == Pad(micro, 6) + tail;
      TakePadded(micro, 6, tail);
    }
  }

  /** Read before whatever offset follows. */
  lemma ClockIsRead(f: Fields, tail: string)
    requires ValidFields(f) && tail != "" && tail[0] in {'+', '-'}
    ensures ParseTime(ClockText(f) + tail) == Some(((f.hour, f.minute, f.second, f.micro), tail))
  {
    var fraction := if f.micro == 0 then "" else "." + Pad(f.micro, 6);
    var end := Pad(f.second, 2) + fraction;
    BlockThen(f.hour, 2, ':', Block(f.minute, 2, ':', end), tail);
    BlockThen(f.minute, 2, ':', end, tail);
    assert end + tail == Pad(f.second, 2) + (fraction + tail);
    FractionIsRead(f.micro, tail);
    TimeIsTaken(f, fraction + tail);
  }

  lemma TimeIsTaken(f: Fields, rest: string)
    requires ValidFields(f) && ParseFraction(rest).Some? && ParseFraction(rest).value.0 == f.micro
    ensures ParseTime(Block(f.hour, 2, ':', Block(f.minute, 2, ':', Pad(f.second, 2) + rest))) ==
      Some(((f.hour, f.minute, f.second, f.micro), ParseFraction(rest).value.1))
  {
    assert Pow10(2) == 100;
    TakeBlocked(f.hour, 2, ':', Block(f.minute, 2, ':', Pad(f.second, 2) + rest));
    TakeBlocked(f.minute, 2, ':', Pad(f.second, 2) + rest);
    TakePadded(f.second, 2, rest);
  }

  lemma TimeIsRead(f: Fields)
    requires ValidFields(f)
    ensures TimeText(f) == ClockText(f) + UTC_OFFSET
    ensures ParseTime(TimeText(f)) == Some(((f.hour, f.minute, f.second, f.micro), UTC_OFFSET))
  {
    var fraction := if f.micro == 0 then "" else "." + Pad(f.micro, 6);
    assert FractionText(f.micro) == fraction + UTC_OFFSET;
    assert TimeText(f) == ClockText(f) + UTC_OFFSET;
    ClockIsRead(f, UTC_OFFSET);
  }

  lemma DateIsRead(f: Fields)
    requires ValidFields(f)
    ensures ParseDate(IsoText(f)) == Some((f.date, TimeText(f)))
  {
    assert Pow10(2) == 100 && Pow10(4) == 10000;
    var day := Block(f.date.day, 2, 'T', TimeText(f));
    TakeBlocked(f.date.year, 4, '-', Block(f.date.month, 2, '-', day));
    TakeBlocked(f.date.month, 2, '-', day);
    TakeBlocked(f.date.day, 2, 'T', TimeText(f));
  }

  lemma IsoIsRead(f: Fields)
    requires ValidFields(f)
    ensures FromIso(IsoText(f)) == Some(Aware(f, 0))
  {
    DateIsRead(f);
    TimeIsRead(f);
    OffsetIsZero();
  }

  ghost predicate NoSpace(s: string) {
    forall i :: 0 <= i < |s| ==> s[i] != ' '
  }

  lemma {:induction false} ReplaceNothing(s: string)
    requires NoSpace(s)
    ensures ReplaceFirst(s, ' ', 'T') == s
  {
    if s != "" {
      ReplaceNothing(s[1..]);
    }
  }

  lemma {:induction false} ReplaceSpace(u: string, v: string)
    requires NoSpace(u)
    ensures ReplaceFirst(u + " " + v, ' ', 'T') == u + "T" + v
  {
    var s := u + " " + v;
    if u == "" {
      assert s[1..] == v;
    } else {
      assert s[1..] == u[1..] + " " + v;
      ReplaceSpace(u[1..], v);
    }
  }

  lemma PadNoSpace(n: nat, width: nat)
    requires n < Pow10(width)
    ensures NoSpace(Pad(n, width))
  {
    ValueOfPad(n, width);
  }

  /** A text printed for UTC ends like this. */
  lemma IsoShape(f: Fields)
    requires ValidFields(f)
    ensures NoSpace(IsoText(f))
    ensures |IsoText(f)| >= 6 && IsoText(f) == IsoText(f)[..|IsoText(f)| - 6] + UTC_OFFSET
  {
    DateHasNoSpace(f.date);
    TimeHasNoSpace(f);
    DateThenTime(f);
    EndsInOffset(f);
  }

  lemma TimeHasNoSpace(f: Fields)
    requires ValidFields(f)
    ensures NoSpace(TimeText(f))
  {
    assert Pow10(2) == 100;
    assert Pow10(6) == SECOND by {
      assert Pow10(3) == 1000;
    }
    PadNoSpace(f.micro, 6);
    PadNoSpace(f.second, 2);
    PadNoSpace(f.minute, 2);
    PadNoSpace(f.hour, 2);
  }

  lemma EndsInOffset(f: Fields)
    requires ValidFields(f)
    ensures |IsoText(f)| >= 6 && IsoText(f)[|IsoText(f)| - 6..] == UTC_OFFSET
  {
    var tail := FractionText(f.micro);
    assert tail[|tail| - 6..] == UTC_OFFSET;
  }

  /** The text with `Z` for its offset. */
  function WithZ(f: Fields): string
    requires ValidFields(f) && |IsoText(f)| >= 6
  {
    IsoText(f)[..|IsoText(f)| - 6] + "Z"
  }

  function DateText(d: Date): string
    requires ValidDate(d)
  {
    Block(d.year, 4, '-', Block(d.month, 2, '-', Pad(d.day, 2)))
  }

  /** The text with a space between date and time. */
  function WithSpace(f: Fields): string
    requires ValidFields(f)
  {
    DateText(f.date) + " " + TimeText(f)
  }

  lemma DateThenTime(f: Fields)
    requires ValidFields(f)
    ensures IsoText(f) == DateText(f.date) + "T" + TimeText(f)
  {
    var day, time := Pad(f.date.day, 2), TimeText(f);
    assert Block(f.date.day, 2, 'T', time) == day + "T" + time;
    assert Block(f.date.month, 2, '-', day + "T" + time) == Block(f.date.month, 2, '-', day) + "T" + time;
  }

  lemma DateHasNoSpace(d: Date)
    requires ValidDate(d)
    ensures NoSpace(DateText(d))
  {
    assert Pow10(2) == 100 && Pow10(4) == 10000;
    PadNoSpace(d.day, 2);
    PadNoSpace(d.month, 2);
    PadNoSpace(d.year, 4);
  }

  lemma NormalEnd(s: string)
    requires |s| >= 6 && s[|s| - 6..] == UTC_OFFSET
    ensures s != "" && s[|s| - 1] == '0'
  {
    assert s[|s| - 1] == s[|s| - 6..][5];
  }

  lemma SpaceIsRead(f: Fields)
    requires ValidFields(f)
    ensures WithSpace(f) != "" && Normalized(WithSpace(f)) == IsoText(f)
  {
    DateHasNoSpace(f.date);
    ReplaceSpace(DateText(f.date), TimeText(f));
    DateThenTime(f);
    EndsInOffset(f);
    NormalEnd(IsoText(f));
  }

  lemma IsoIsNormal(f: Fields)
    requires ValidFields(f)
    ensures Normalized(IsoText(f)) == IsoText(f)
    ensures |IsoText(f)| >= 6 && Normalized(WithZ(f)) == IsoText(f)
  {
    IsoShape(f);
    ReplaceNothing(IsoText(f));
    ReplaceNothing(WithZ(f));
  }

  lemma TextIsRead(s: string, f: Fields)
    requires ValidFields(f) && s != "" && Normalized(s) == IsoText(f)
    ensures ParseDt(Some(s)) == Parsed(Aware(f, 0))
  {
    IsoIsRead(f);
  }

  /** All three spellings of a UTC text read as its fields. */
  lemma SpellingsAreRead(f: Fields)
    requires ValidFields(f)
    ensures ParseDt(Some(IsoText(f))) == Parsed(Aware(f, 0))
    ensures |IsoText(f)| >= 6 && ParseDt(Some(WithZ(f))) == Parsed(Aware(f, 0))
    ensures ParseDt(Some(WithSpace(f))) == Parsed(Aware(f, 0))
  {
    EndsInOffset(f);
    IsoIsNormal(f);
    SpaceIsRead(f);
    TextIsRead(IsoText(f), f);
    TextIsRead(WithZ(f), f);
    TextIsRead(WithSpace(f), f);
  }

  /** Reading back what was stored gives the same moment, in UTC, also when the offset was spelled
      `Z` or the `T` as a space; a missing value stays missing. */
  lemma RoundTrip(v: DateTime, f: Fields)
    requires Representable(v) && f == FieldsOf(Moment(v))
    ensures Moment(Aware(f, 0)) == Moment(v)
    ensures ParseDt(IsoUtc(Some(v))) == Parsed(Aware(f, 0)) && ParseDt(IsoUtc(None)) == Absent
    ensures ParseDt(Some(WithSpace(f))) == Parsed(Aware(f, 0))
    ensures |IsoText(f)| >= 6 && ParseDt(Some(WithZ(f))) == Parsed(Aware(f, 0))
  {
    SpellingsAreRead(f);
  }

  /** In particular what is read back is the moment that was stored. */
  lemma StoredIsRead(v: DateTime) returns (back: DateTime)
    requires Representable(v)
    ensures ParseDt(IsoUtc(Some(v))) == Parsed(back) && Moment(back) == Moment(v)
  {
    var f := FieldsOf(Moment(v));
    RoundTrip(v, f);
    back := Aware(f, 0);
  }

  // ------------------------------------------------------------------ offsets

  /** `+hh:mm` or `-hh:mm`. */
  function OffsetText(ahead: bool, h: nat, m: nat): string {
    (if ahead then "+" else "-") + Block(h, 2, ':', Pad(m, 2))
  }

  lemma OffsetIsRead(ahead: bool, h: nat, m: nat)
    requires h < 24 && m < 60
    ensures ParseOffset(OffsetText(ahead, h, m)) ==
      Some(if ahead then h * HOUR + m * MINUTE else -(h * HOUR + m * MINUTE))
  {
    assert Pow10(2) == 100;
    assert OffsetText(ahead, h, m)[1..] == Block(h, 2, ':', Pad(m, 2));
    TakeBlocked(h, 2, ':', Pad(m, 2));
    assert Pad(m, 2) == Pad(m, 2) + "";
    TakePadded(m, 2, "");
  }

  /** A clock text with an offset ahead of UTC is that much earlier, one behind that much later. */
  lemma OffsetsAreRead(f: Fields, ahead: bool, h: nat, m: nat)
    requires ValidFields(f) && h < 24 && m < 60
    ensures var v := Aware(f, if ahead then h * HOUR + m * MINUTE else -(h * HOUR + m * MINUTE));
      && FromIso(DateText(f.date) + "T" + (ClockText(f) + OffsetText(ahead, h, m))) == Some(v)
      && Moment(v) == Instant(f) + if ahead then -(h * HOUR + m * MINUTE) else h * HOUR + m * MINUTE
  {
    OffsetIsRead(ahead, h, m);
    ClockIsRead(f, OffsetText(ahead, h, m));
    DateBefore(f.date, ClockText(f) + OffsetText(ahead, h, m));
  }

  lemma DateBefore(d: Date, rest: string)
    requires ValidDate(d)
    ensures ParseDate(DateText(d) + "T" + rest) == Some((d, rest))
  {
    assert Pow10(2) == 100 && Pow10(4) == 10000;
    var day := Block(d.day, 2, 'T', rest);
    assert DateText(d) + "T" + rest == Block(d.year, 4, '-', Block(d.month, 2, '-', day));
    TakeBlocked(d.year, 4, '-', Block(d.month, 2, '-', day));
    TakeBlocked(d.month, 2, '-', day);
    TakeBlocked(d.day, 2, 'T', rest);
  }

  /** Fields are determined by their instant. */
  lemma FieldsAreUnique(f: Fields)
    requires ValidFields(f) && 0 <= Instant(f) < MAX_INSTANT
    ensures FieldsOf(Instant(f)) == f
  {
    var g := FieldsOf(Instant(f));
    InstantsFollowFields(f, g);
    InstantsFollowFields(g, f);
    SameOrdinal(f.date, g.date);
    SameOrdinal(g.date, f.date);
    OrdinalsFollowDates(f.date, g.date);
    OrdinalsFollowDates(g.date, f.date);
    TimesFollowClock(f, g);
    TimesFollowClock(g, f);
  }

  /** What a clock k hours ahead of UTC shows is printed k hours earlier. */
  lemma AheadIsPrintedEarlier(f: Fields, k: int)
    requires ValidFields(f) && 0 <= f.hour - k < 24 && Representable(Aware(f, k * HOUR))
    ensures IsoUtc(Some(Aware(f, k * HOUR))) == Some(IsoText(f.(hour := f.hour - k)))
  {
    var g := f.(hour := f.hour - k);
    HoursEarlier(f, k);
    assert Moment(Aware(f, k * HOUR)) == Instant(g);
    FieldsAreUnique(g);
  }

  lemma HoursEarlier(f: Fields, k: int)
    ensures Instant(f.(hour := f.hour - k)) == Instant(f) - k * HOUR
  {
  }

  lemma PadTwo(n: nat)
    ensures Pad(n, 2) == [Digit(n / 10 % 10), Digit(n % 10)]
  {
    assert Pad(n / 10, 1) == [Digit(n / 10 % 10)];
  }

  lemma PadFour(n: nat)
    ensures Pad(n, 4) == Pad(n / 100, 2) + Pad(n, 2)
  {
    assert Pad(n, 4) == Pad(n / 10, 3) + [Digit(n % 10)];
    assert n / 10 / 10 == n / 100;
    assert Pad(n / 10, 3) == Pad(n / 100, 2) + [Digit(n / 10 % 10)];
    PadTwo(n);
  }

  lemma PadSix(n: nat)
    ensures Pad(n, 6) == Pad(n / 100, 4) + Pad(n, 2)
  {
    assert Pad(n, 6) == Pad(n / 10, 5) + [Digit(n % 10)];
    assert n / 10 / 10 == n / 100;
    assert Pad(n / 10, 5) == Pad(n / 100, 4) + [Digit(n / 10 % 10)];
    PadTwo(n);
  }

  lemma DecimalDigits(n: nat)
    requires n < 10
    ensures Digit(n) == "0123456789"[n]
  {
  }

  /** The printed form, written out. */
  lemma PrintedForm(f: Fields)
    requires ValidFields(f)
    ensures IsoText(f) ==
      Pad(f.date.year, 4) + "-" + Pad(f.date.month, 2) + "-" + Pad(f.date.day, 2) + "T" +
      (Pad(f.hour, 2) + ":" + Pad(f.minute, 2) + ":" + Pad(f.second, 2) +
       (if f.micro == 0 then "" else "." + Pad(f.micro, 6)) + "+00:00")
  {
    DateThenTime(f);
    TimeIsRead(f);
    DateSpelled(f.date);
    ClockSpelled(f);
  }

  lemma DateSpelled(d: Date)
    requires ValidDate(d)
    ensures DateText(d) == Pad(d.year, 4) + "-" + Pad(d.month, 2) + "-" + Pad(d.day, 2)
  {
  }

  lemma ClockSpelled(f: Fields)
    requires ValidFields(f)
    ensures ClockText(f) == Pad(f.hour, 2) + ":" + Pad(f.minute, 2) + ":" + Pad(f.second, 2) +
      if f.micro == 0 then "" else "." + Pad(f.micro, 6)
  {
  }
}

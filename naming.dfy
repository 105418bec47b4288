/**
 * The filename and caption a submission attaches to its photo
 * (WebhookService.uploadPhotoToWebhook, patterns `yyyy-MM-dd_HH-mm-ss` and `dd/MM/yyyy HH:mm:ss`).
 */
module Naming {
  import opened Wrappers
  import opened Text

  /** A local date-time as `LocalDateTime.now()` yields it, to the second. */
  datatype Timestamp = Timestamp(year: nat, month: nat, day: nat, hour: nat, minute: nat, second: nat)

  predicate IsLeapYear(y: nat) {
    (y % 4 == 0 && y % 100 != 0) || y % 400 == 0
  }

  function DaysInMonth(y: nat, m: nat): nat
    requires 1 <= m <= 12
  {
    if m == 2 then (if IsLeapYear(y) then 29 else 28)
    else if m == 4 || m == 6 || m == 9 || m == 11 then 30
    else 31
  }

  /** A real calendar instant whose year fits the four digits of `yyyy`. */
  predicate ValidTimestamp(t: Timestamp) {
    1 <= t.year <= 9999 && 1 <= t.month <= 12 && 1 <= t.day <= DaysInMonth(t.year, t.month) &&
    t.hour < 24 && t.minute < 60 && t.second < 60
  }

  /** A field printed zero-padded to two digits (`MM`, `dd`, `HH`, `mm`, `ss`). */
  function Pad2(n: nat): (s: string)
    requires n < 100
    ensures |s| == 2 && IsDigits(s)
  {
    [DigitChar(n / 10), DigitChar(n % 10)]
  }

  /** The year printed zero-padded to four digits (`yyyy`). */
  function Pad4(n: nat): (s: string)
    requires n < 10000
    ensures |s| == 4 && IsDigits(s)
  {
    Pad2(n / 100) + Pad2(n % 100)
  }

  function Read2(s: string): nat
    requires |s| == 2 && IsDigits(s)
  {
    10 * DigitValue(s[0]) + DigitValue(s[1])
  }

  function Read4(s: string): nat
    requires |s| == 4 && IsDigits(s)
  {
    100 * Read2(s[..2]) + Read2(s[2..])
  }

  lemma Pad2RoundTrip(n: nat)
    requires n < 100
    ensures Read2(Pad2(n)) == n
  {
  }

  lemma Pad4RoundTrip(n: nat)
    requires n < 10000
    ensures Read4(Pad4(n)) == n
  {
    var s := Pad4(n);
    assert s[..2] == Pad2(n / 100) && s[2..] == Pad2(n % 100);
    Pad2RoundTrip(n / 100);
    Pad2RoundTrip(n % 100);
  }

  /** Three fields with one separator character between each two: `a-b-c`, `a/b/c`, `a:b:c`. */
  function Join3(a: string, sep: char, b: string, c: string): string {
    a + [sep] + b + [sep] + c
  }

  /** Where the fields of a `Join3` lie. */
  lemma Join3Parts(a: string, sep: char, b: string, c: string)
    ensures var s := Join3(a, sep, b, c);
            |s| == |a| + |b| + |c| + 2 && s[..|a|] == a && s[|a|] == sep &&
            s[|a| + 1..|a| + 1 + |b|] == b && s[|a| + 1 + |b|] == sep && s[|a| + |b| + 2..] == c
  {
    var s := Join3(a, sep, b, c);
    assert s == a + ([sep] + b + [sep] + c);
    assert s[|a| + 1..] == b + ([sep] + c);
    assert s[|a| + 1 + |b|..] == [sep] + c;
  }

  /** `yyyy-MM-dd`. */
  function DateDashed(t: Timestamp): string
    requires ValidTimestamp(t)
  {
    Join3(Pad4(t.year), '-', Pad2(t.month), Pad2(t.day))
  }

  /** `dd/MM/yyyy`. */
  function DateSlashed(t: Timestamp): string
    requires ValidTimestamp(t)
  {
    Join3(Pad2(t.day), '/', Pad2(t.month), Pad4(t.year))
  }

  /** `HH-mm-ss` in the filename, `HH:mm:ss` in the caption. */
  function TimeOfDay(t: Timestamp, sep: char): string
    requires ValidTimestamp(t)
  {
    Join3(Pad2(t.hour), sep, Pad2(t.minute), Pad2(t.second))
  }

  const FilenamePrefix := "camera-photo-"
  const FilenameSuffix := ".jpg"
  const CaptionPrefix := "\U{1F4F8} Nueva foto tomada - "

  /** "camera-photo-" + `yyyy-MM-dd_HH-mm-ss` + ".jpg". */
  function Filename(t: Timestamp): string
    requires ValidTimestamp(t)
  {
    FilenamePrefix + (DateDashed(t) + "_" + TimeOfDay(t, '-')) + FilenameSuffix
  }

  /** "📸 Nueva foto tomada - " + `dd/MM/yyyy HH:mm:ss`. */
  function Caption(t: Timestamp): string
    requires ValidTimestamp(t)
  {
    CaptionPrefix + (DateSlashed(t) + " " + TimeOfDay(t, ':'))
  }

  /** A two- or four-digit numeric field. */
  function ReadField(s: string): nat
    requires (|s| == 2 || |s| == 4) && IsDigits(s)
  {
    if |s| == 4 then Read4(s) else Read2(s)
  }

  /** Reads three numeric fields of widths `wa`, 2 and `wc`, split by `sep`; None if `s` is not of that shape. */
  function Read3(s: string, sep: char, wa: nat, wc: nat): (r: Option<(nat, nat, nat)>)
    requires (wa == 2 || wa == 4) && (wc == 2 || wc == 4)
  {
    if |s| == wa + wc + 4 && s[wa] == sep && s[wa + 3] == sep &&
       IsDigits(s[..wa]) && IsDigits(s[wa + 1..wa + 3]) && IsDigits(s[wa + 4..])
    then Some((ReadField(s[..wa]), Read2(s[wa + 1..wa + 3]), ReadField(s[wa + 4..])))
    else None
  }

  lemma DateDashedRoundTrip(t: Timestamp)
    requires ValidTimestamp(t)
    ensures |DateDashed(t)| == 10
    ensures Read3(DateDashed(t), '-', 4, 2) == Some((t.year, t.month, t.day))
  {
    Join3Parts(Pad4(t.year), '-', Pad2(t.month), Pad2(t.day));
    Pad4RoundTrip(t.year);
    Pad2RoundTrip(t.month);
    Pad2RoundTrip(t.day);
  }

  lemma DateSlashedRoundTrip(t: Timestamp)
    requires ValidTimestamp(t)
    ensures |DateSlashed(t)| == 10
    ensures Read3(DateSlashed(t), '/', 2, 4) == Some((t.day, t.month, t.year))
  {
    Join3Parts(Pad2(t.day), '/', Pad2(t.month), Pad4(t.year));
    Pad4RoundTrip(t.year);
    Pad2RoundTrip(t.month);
    Pad2RoundTrip(t.day);
  }

  lemma TimeOfDayRoundTrip(t: Timestamp, sep: char)
    requires ValidTimestamp(t)
    ensures |TimeOfDay(t, sep)| == 8
    ensures Read3(TimeOfDay(t, sep), sep, 2, 2) == Some((t.hour, t.minute, t.second))
  {
    Join3Parts(Pad2(t.hour), sep, Pad2(t.minute), Pad2(t.second));
    Pad2RoundTrip(t.hour);
    Pad2RoundTrip(t.minute);
    Pad2RoundTrip(t.second);
  }

  /** Recovers the timestamp from a generated filename; None for any other string. */
  function ParseFilename(s: string): (r: Option<Timestamp>)
    ensures r.Some? ==> |s| == 36 && StartsWith(s, FilenamePrefix)
  {
    if |s| == 36 && s[..13] == FilenamePrefix && s[32..] == FilenameSuffix && s[23] == '_' then
      match (Read3(s[13..23], '-', 4, 2), Read3(s[24..32], '-', 2, 2))
      case (Some((y, mo, d)), Some((h, mi, se))) => Some(Timestamp(y, mo, d, h, mi, se))
      case _ => None
    else None
  }

  /** Recovers the timestamp from a generated caption; None for any other string. */
  function ParseCaption(s: string): (r: Option<Timestamp>)
    ensures r.Some? ==> |s| == 41 && StartsWith(s, CaptionPrefix)
  {
    if |s| == 41 && s[..22] == CaptionPrefix && s[32] == ' ' then
      match (Read3(s[22..32], '/', 2, 4), Read3(s[33..41], ':', 2, 2))
      case (Some((d, mo, y)), Some((h, mi, se))) => Some(Timestamp(y, mo, d, h, mi, se))
      case _ => None
    else None
  }

  /** Every field of the filename is zero-padded, so the timestamp can be read back from it. */
  lemma FilenameRoundTrip(t: Timestamp)
    requires ValidTimestamp(t)
    ensures ParseFilename(Filename(t)) == Some(t)
  {
    var date, time := DateDashed(t), TimeOfDay(t, '-');
    DateDashedRoundTrip(t);
    TimeOfDayRoundTrip(t, '-');
    var mid := date + "_" + time;
    assert mid[..10] == date && mid[10] == '_' && mid[11..] == time;
    var s := Filename(t);
    assert s == FilenamePrefix + mid + FilenameSuffix;
    assert s[..13] == FilenamePrefix && s[13..32] == mid && s[32..] == FilenameSuffix;
    assert s[13..23] == mid[..10] && s[24..32] == mid[11..];
  }

  /** The caption's day/month/year and time fields read back to the timestamp. */
  lemma CaptionRoundTrip(t: Timestamp)
    requires ValidTimestamp(t)
    ensures ParseCaption(Caption(t)) == Some(t)
  {
    var date, time := DateSlashed(t), TimeOfDay(t, ':');
    DateSlashedRoundTrip(t);
    TimeOfDayRoundTrip(t, ':');
    var mid := date + " " + time;
    assert mid[..10] == date && mid[10] == ' ' && mid[11..] == time;
    var s := Caption(t);
    assert s[..22] == CaptionPrefix && s[22..] == mid;
    assert s[22..32] == mid[..10] && s[33..41] == mid[11..];
  }

  /** Photos taken in different seconds get different filenames. */
  lemma FilenameInjective(t: Timestamp, u: Timestamp)
    requires ValidTimestamp(t) && ValidTimestamp(u) && Filename(t) == Filename(u)
    ensures t == u
  {
    FilenameRoundTrip(t);
    FilenameRoundTrip(u);
  }
}

/**
 * The display formatters of a post card: the relative "time ago" label,
 * the comment-count label and the avatar fallback.
 */
module Format {
  import opened Common
  import opened Text

  const MinuteMs: int := 60 * 1000
  const HourMs: int := 60 * MinuteMs
  const DayMs: int := 24 * HourMs

  /**
   * `displayDate`. `elapsedMs` is now minus the timestamp in milliseconds,
   * absent when the timestamp does not parse (then every comparison on NaN is
   * false and the code falls through); `localeDate` is the opaque
   * `toLocaleDateString()` text of the timestamp. Each bucket is floored from
   * the previous one, exactly as the source divides.
   */
  function DisplayDate(elapsedMs: Option<int>, localeDate: string): (r: string)
    ensures elapsedMs.None? ==> r == localeDate
    ensures elapsedMs.Some? && elapsedMs.value < MinuteMs ==> r == "just now"
    ensures elapsedMs.Some? && MinuteMs <= elapsedMs.value < HourMs ==>
      r == Decimal(elapsedMs.value / MinuteMs) + " min ago"
    ensures elapsedMs.Some? && HourMs <= elapsedMs.value < DayMs ==>
      r == Decimal(elapsedMs.value / HourMs) + (if elapsedMs.value >= 2 * HourMs then " hours ago" else " hour ago")
    ensures elapsedMs.Some? && DayMs <= elapsedMs.value < 30 * DayMs ==>
      r == Decimal(elapsedMs.value / DayMs) + (if elapsedMs.value >= 2 * DayMs then " days ago" else " day ago")
    ensures elapsedMs.Some? && elapsedMs.value >= 30 * DayMs ==> r == localeDate
  {
    match elapsedMs
    case None => localeDate
    case Some(ms) =>
      FloorSteps(ms);
      // Dafny's `/` with a positive divisor floors, as `Math.floor(x / d)` does.
      var seconds := ms / 1000;
      if seconds < 60 then "just now"
      else
        var minutes := seconds / 60;
        if minutes < 60 then Decimal(minutes) + " min ago"
        else
          var hours := minutes / 60;
          if hours < 24 then Decimal(hours) + " hour" + (if hours > 1 then "s" else "") + " ago"
          else
            var days := hours / 24;
            if days < 30 then Decimal(days) + " day" + (if days > 1 then "s" else "") + " ago"
            else localeDate
  }

  /** Flooring step by step (seconds, then minutes, hours, days) equals flooring once. */
  lemma FloorSteps(ms: int)
    ensures ms / 1000 / 60 == ms / MinuteMs
    ensures ms / 1000 / 60 / 60 == ms / HourMs
    ensures ms / 1000 / 60 / 60 / 24 == ms / DayMs
  {
    var s := ms / 1000;
    var m := s / 60;
    assert 60000 * m <= ms < 60000 * (m + 1);
    var h := m / 60;
    assert 3600000 * h <= ms < 3600000 * (h + 1);
    var d := h / 24;
    assert 86400000 * d <= ms < 86400000 * (d + 1);
  }

  /** Negative elapsed time (a timestamp in the future) still reads "just now". */
  lemma FutureIsJustNow(ms: int, localeDate: string)
    requires ms < 0
    ensures DisplayDate(Some(ms), localeDate) == "just now"
  {
  }

  /** The number printed in the minute bucket reads back as the whole minutes elapsed. */
  lemma MinuteLabelReadsBack(ms: int, localeDate: string)
    requires MinuteMs <= ms < HourMs
    ensures var r := DisplayDate(Some(ms), localeDate);
      var n := |r| - |" min ago"|;
      && 0 <= n && r[n..] == " min ago"
      && (forall i :: 0 <= i < n ==> IsDigit(r[i]))
      && ParseDecimal(r[..n]) == ms / MinuteMs
  {
    var r := DisplayDate(Some(ms), localeDate);
    var d := Decimal(ms / MinuteMs);
    assert r == d + " min ago";
    assert r[..|d|] == d;
    DecimalRoundTrip(ms / MinuteMs);
  }

  // ---------------------------------------------------------------------
  // The comment-count label
  // ---------------------------------------------------------------------

  /**
   * The count label as the source writes it: below 1000 the decimal count;
   * from 1000 on, the first digit, ".", the second digit and "K", whatever
   * the number of digits.
   */
  function CountLabelAsWritten(n: nat): (r: string)
    ensures n < 1000 ==> r == Decimal(n)
    ensures n >= 1000 ==>
      |r| == 4 && r[1] == '.' && r[3] == 'K' && r[0] == Decimal(n)[0] && r[2] == Decimal(n)[1]
  {
    var s := Decimal(n);
    if n >= 1000 then s[0..1] + "." + s[1..2] + "K" else s
  }

  /** The decimal rendering of a four-digit number, digit by digit. */
  lemma {:induction false} FourDigits(n: nat)
    requires 1000 <= n < 10000
    ensures Decimal(n) == [DigitChar(n / 1000), DigitChar(n / 100 % 10), DigitChar(n / 10 % 10), DigitChar(n % 10)]
  {
    assert Decimal(n / 1000) == [DigitChar(n / 1000)];
    assert Decimal(n / 100) == Decimal(n / 1000) + [DigitChar(n / 100 % 10)];
    assert Decimal(n / 10) == Decimal(n / 100) + [DigitChar(n / 10 % 10)];
  }

  /** 12345 comments are labelled "1.2K", which reads as about 1200; the intended label is "12.3K". */
  lemma CountLabelAsWrittenMisreads()
    ensures CountLabelAsWritten(12345) == "1.2K"
    ensures CountLabel(12345) == "12.3K"
  {
    assert Decimal(1) == "1";
    assert Decimal(12) == Decimal(1) + "2";
    assert Decimal(123) == Decimal(12) + "3";
    assert Decimal(1234) == Decimal(123) + "4";
    assert Decimal(12345) == Decimal(1234) + "5";
  }

  /**
   * The count label as evidently intended: the count in thousands, "." and
   * the hundreds digit, then "K" (12345 gives "12.3K").
   */
  function CountLabel(n: nat): (r: string)
    ensures n < 1000 ==> r == Decimal(n)
    ensures n >= 1000 ==> |r| >= 4 && r[|r| - 1] == 'K' && r[|r| - 3] == '.'
  {
    if n < 1000 then Decimal(n) else Decimal(n / 1000) + "." + [DigitChar(n / 100 % 10)] + "K"
  }

  /**
   * From 1000 on the corrected label, read as a decimal count of thousands
   * with one decimal, is the count truncated to hundreds.
   */
  lemma CountLabelReadsBack(n: nat)
    requires n >= 1000
    ensures var r := CountLabel(n);
      && (forall i :: 0 <= i < |r| - 3 ==> IsDigit(r[i]))
      && IsDigit(r[|r| - 2])
      && ParseDecimal(r[..|r| - 3]) * 10 + DigitValue(r[|r| - 2]) == n / 100
  {
    var r := CountLabel(n);
    var d := Decimal(n / 1000);
    assert r[..|r| - 3] == d;
    assert r[|r| - 2] == DigitChar(n / 100 % 10);
    DecimalRoundTrip(n / 1000);
  }

  /** Between 1000 and 9999 the code as written already gives the intended label. */
  lemma CountLabelAgreesOnFourDigits(n: nat)
    requires 1000 <= n < 10000
    ensures CountLabelAsWritten(n) == CountLabel(n)
  {
    FourDigits(n);
    assert Decimal(n / 1000) == [DigitChar(n / 1000)];
  }

  // ---------------------------------------------------------------------
  // The avatar fallback
  // ---------------------------------------------------------------------

  /** An avatar: the author's photo, or the first character of the name ("" for an empty name). */
  datatype Avatar = PhotoAvatar(url: string) | InitialAvatar(initial: string)

  /**
   * The photo is shown unless its URL contains "undefined" (what the backend
   * builds for a user without a photo); the fallback is `name.charAt(0)`.
   */
  function AvatarFor(photo: string, name: string): (a: Avatar)
    ensures a.PhotoAvatar? <==> !(exists i :: OccursAt(photo, "undefined", i))
    ensures a.PhotoAvatar? ==> a.url == photo
    ensures a.InitialAvatar? ==> a.initial == name[..if |name| == 0 then 0 else 1]
  {
    if !Includes(photo, "undefined") then PhotoAvatar(photo)
    else InitialAvatar(if name == "" then "" else [name[0]])
  }

  /** Any photo URL with "undefined" spliced into it falls back to the initial. */
  lemma UndefinedPhotoFallsBack(prefix: string, suffix: string, name: string)
    ensures AvatarFor(prefix + "undefined" + suffix, name).InitialAvatar?
  {
    var photo := prefix + "undefined" + suffix;
    assert photo[|prefix|..|prefix| + |"undefined"|] == "undefined";
    assert OccursAt(photo, "undefined", |prefix|);
  }
}

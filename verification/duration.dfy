/**
 * The trip clock of the driver's tracking screen (`updateTripDuration`): the
 * milliseconds elapsed since the trip started are split into hours, minutes
 * and seconds with floor division and remainder, and each field is printed
 * zero-padded to two characters as `HH:MM:SS`. `ParseDuration` reads such a
 * text back and is the inverse of the formatter.
 */
module TripDuration {
  import opened Wrappers
  import opened Text

  const MsPerSecond: nat := 1000
  const MsPerMinute: nat := 1000 * 60
  const MsPerHour: nat := 1000 * 60 * 60

  /** The three printed fields of the clock. */
  datatype Clock = Clock(hours: nat, minutes: nat, seconds: nat)

  /**
   * The fields computed from a non-negative millisecond difference. For a
   * non-negative `diff`, `Math.floor` of a quotient is Dafny's `/`.
   */
  function Split(diff: nat): (c: Clock)
    ensures c.minutes < 60 && c.seconds < 60
  {
    Clock(diff / MsPerHour, (diff % MsPerHour) / MsPerMinute, (diff % MsPerMinute) / MsPerSecond)
  }

  /** The fields and the dropped milliseconds add back up to the difference. */
  lemma SplitReconstructs(diff: nat)
    ensures var c := Split(diff);
      c.hours * MsPerHour + c.minutes * MsPerMinute + c.seconds * MsPerSecond + diff % MsPerSecond == diff
  {
    var h, a := diff / MsPerHour, diff % MsPerHour;
    var m, b := a / MsPerMinute, a % MsPerMinute;
    var s, ms := b / MsPerSecond, b % MsPerSecond;
    // 3600000 is a multiple of 60000, and 60000 of 1000
    DivMod(diff, h * 60 + m, b, MsPerMinute);
    DivMod(diff, (h * 60 + m) * 60 + s, ms, MsPerSecond);
  }

  /**
   * The fields are the only ones with minutes and seconds below 60 and a
   * sub-second rest that reconstruct the difference.
   */
  lemma SplitUnique(diff: nat, c: Clock, ms: nat)
    requires c.minutes < 60 && c.seconds < 60 && ms < MsPerSecond
    requires c.hours * MsPerHour + c.minutes * MsPerMinute + c.seconds * MsPerSecond + ms == diff
    ensures Split(diff) == c && diff % MsPerSecond == ms
  {
    var small := c.seconds * MsPerSecond + ms;
    var rest := c.minutes * MsPerMinute + small;
    DivMod(diff, c.hours, rest, MsPerHour);
    DivMod(rest, c.minutes, small, MsPerMinute);
    DivMod(diff, c.hours * 60 + c.minutes, small, MsPerMinute);
    DivMod(small, c.seconds, ms, MsPerSecond);
    DivMod(diff, (c.hours * 60 + c.minutes) * 60 + c.seconds, ms, MsPerSecond);
  }

  /** Quotient and remainder are determined by the division equation. */
  lemma DivMod(x: nat, q: nat, r: nat, d: nat)
    requires 0 <= r < d && x == q * d + r
    ensures x / d == q && x % d == r
  {
    var k := q - x / d;
    assert k * d == x % d - r;
    if k >= 1 {
      assert false;
    } else if k <= -1 {
      assert false;
    }
  }

  /** One field: `n.toString().padStart(2, '0')`. */
  function Field(n: nat): (r: string)
    ensures AllDigits(r) && |r| >= 2
    ensures n < 100 ==> |r| == 2
  {
    PadStart(NatToDecimal(n), 2, '0')
  }

  /** The three printed fields joined by ':'. */
  function Join(h: string, m: string, s: string): string {
    h + ":" + m + ":" + s
  }

  /** With two-character minutes and seconds, each field of a joined text is where the reader looks. */
  lemma JoinFields(h: string, m: string, s: string)
    requires |m| == 2 && |s| == 2
    ensures var t := Join(h, m, s);
      && |t| == |h| + 6 && t[|t| - 3] == ':' && t[|t| - 6] == ':'
      && t[..|t| - 6] == h && t[|t| - 5..|t| - 3] == m && t[|t| - 2..] == s
  {
    var t := Join(h, m, s);
    assert t == h + (":" + m + ":" + s);
    assert t[|h|..] == ":" + m + ":" + s;
  }

  /**
   * The printed form of clock fields: three fields separated by ':', each the
   * numeral of its value left-padded with '0' to at least two characters.
   */
  function FormatClock(c: Clock): (t: string)
    requires c.minutes < 60 && c.seconds < 60
    ensures |t| >= 8 && t[|t| - 3] == ':' && t[|t| - 6] == ':'
    ensures t[..|t| - 6] == Field(c.hours)
    ensures t[|t| - 5..|t| - 3] == Field(c.minutes)
    ensures t[|t| - 2..] == Field(c.seconds)
  {
    JoinFields(Field(c.hours), Field(c.minutes), Field(c.seconds));
    Join(Field(c.hours), Field(c.minutes), Field(c.seconds))
  }

  /**
   * The text the tracking screen shows for a difference of `diff` milliseconds.
   * It reads back as the computed fields: the formatter loses nothing but
   * milliseconds.
   */
  function FormatDuration(diff: nat): (t: string)
    ensures |t| >= 8 && t[|t| - 3] == ':' && t[|t| - 6] == ':'
    ensures ParseDuration(t) == Some(Split(diff))
    ensures t == FormatClock(Split(diff))
  {
    var c := Split(diff);
    ParseFormatClock(c);
    FormatClock(c)
  }

  /** Reads `H…H:MM:SS` back into its fields; anything else is `None`. */
  function ParseDuration(t: string): Option<Clock> {
    if |t| < 8 || t[|t| - 6] != ':' || t[|t| - 3] != ':' then None
    else
      var h, m, s := t[..|t| - 6], t[|t| - 5..|t| - 3], t[|t| - 2..];
      if AllDigits(h) && AllDigits(m) && AllDigits(s)
      then Some(Clock(DecimalValue(h), DecimalValue(m), DecimalValue(s)))
      else None
  }

  /** A printed field reads back as its number. */
  lemma FieldReadsBack(n: nat)
    ensures AllDigits(Field(n)) && DecimalValue(Field(n)) == n
  {
    PaddedRoundTrip(n, 2);
  }

  /** Printed clock fields read back as themselves. */
  lemma ParseFormatClock(c: Clock)
    requires c.minutes < 60 && c.seconds < 60
    ensures ParseDuration(FormatClock(c)) == Some(c)
  {
    var h, m, s := Field(c.hours), Field(c.minutes), Field(c.seconds);
    JoinFields(h, m, s);
    FieldReadsBack(c.hours);
    FieldReadsBack(c.minutes);
    FieldReadsBack(c.seconds);
    var t := FormatClock(c);
    assert t == Join(h, m, s);
    assert t[..|t| - 6] == h && t[|t| - 5..|t| - 3] == m && t[|t| - 2..] == s;
  }
}

/**
 * The run-time text of the pause overlay: a tick count (100 ns units) becomes
 * "Hh Mm" when it covers at least one whole hour and "Mm" otherwise. The two
 * overlay variants differ only in how ticks become minutes, so that step lives
 * with each of them; this module holds the shared text format and its reader.
 */
module Duration {
  import opened Options
  import opened JsString

  /** 600,000,000 ticks of 100 ns make one minute. */
  const TicksPerMinute: nat := 600000000

  /** A duration as written: the hours when they are shown, and the minutes. */
  datatype Clock = Clock(hours: Option<nat>, minutes: nat)

  function TotalMinutes(c: Clock): nat {
    c.hours.GetOr(0) * 60 + c.minutes
  }

  /** `${hours}h ${minutes}m` when `hours > 0`, else `${minutes}m`, with `minutes = total % 60`. */
  function Render(totalMinutes: nat): string {
    var hours := totalMinutes / 60;
    var minutes := totalMinutes % 60;
    if hours > 0 then Decimal(hours) + "h " + Decimal(minutes) + "m" else Decimal(minutes) + "m"
  }

  /** The position of the first 'h' in `s`, or `|s|` when there is none. */
  function IndexOfH(s: string): (k: nat)
    ensures k <= |s|
    ensures k < |s| ==> s[k] == 'h'
    ensures forall i :: 0 <= i < k ==> s[i] != 'h'
  {
    if s == [] || s[0] == 'h' then 0 else 1 + IndexOfH(s[1..])
  }

  /** Reads back a duration in either of the two shapes `Render` writes. */
  function Parse(s: string): Option<Clock> {
    if |s| < 2 || s[|s| - 1] != 'm' then None else ParseBody(s[..|s| - 1])
  }

  /** The text before the closing 'm': digits, or digits, 'h', a space and digits. */
  function ParseBody(body: string): Option<Clock> {
    var k := IndexOfH(body);
    if k == |body| then
      if IsDigits(body) then Some(Clock(None, DigitsValue(body))) else None
    else if k + 1 < |body| && body[k + 1] == ' ' && IsDigits(body[..k]) && IsDigits(body[k + 2..]) then
      Some(Clock(Some(DigitsValue(body[..k])), DigitsValue(body[k + 2..])))
    else None
  }

  /** A text closed by 'm' is read by its body. */
  lemma ParseClosed(body: string)
    requires body != []
    ensures Parse(body + "m") == ParseBody(body)
  {
    var s := body + "m";
    assert s[..|s| - 1] == body;
  }

  /** Digits contain no 'h'. */
  lemma DigitsHaveNoH(d: string)
    requires IsDigits(d)
    ensures forall i :: 0 <= i < |d| ==> d[i] != 'h'
  {
    forall i | 0 <= i < |d| ensures d[i] != 'h' {
      assert IsDigit(d[i]);
    }
  }

  /** Digits, "h ", digits reads as hours and minutes. */
  lemma ParseBodyHoursMinutes(h: string, m: string)
    requires IsDigits(h) && IsDigits(m)
    ensures ParseBody(h + "h " + m) == Some(Clock(Some(DigitsValue(h)), DigitsValue(m)))
  {
    var tail := "h " + m;
    var body := h + tail;
    assert h + "h " + m == body;
    assert IndexOfH(tail) == 0;
    DigitsHaveNoH(h);
    IndexOfHSkip(h, tail);
    assert body[|h| + 1] == ' ';
    assert body[..|h|] == h;
    assert body[|h| + 2..] == m;
  }

  lemma {:induction false} IndexOfHSkip(a: string, b: string)
    requires forall i :: 0 <= i < |a| ==> a[i] != 'h'
    ensures IndexOfH(a + b) == |a| + IndexOfH(b)
  {
    if a == [] {
      assert a + b == b;
    } else {
      assert (a + b)[0] == a[0] && (a + b)[1..] == a[1..] + b;
      IndexOfHSkip(a[1..], b);
    }
  }

  /** "Hh Mm" reads back as its two numbers. */
  lemma ParseHoursMinutes(hours: nat, minutes: nat)
    ensures Parse(Decimal(hours) + "h " + Decimal(minutes) + "m") == Some(Clock(Some(hours), minutes))
  {
    var h, m := Decimal(hours), Decimal(minutes);
    DecimalRoundTrip(hours);
    DecimalRoundTrip(minutes);
    ParseBodyHoursMinutes(h, m);
    ParseClosed(h + "h " + m);
  }

  /** "Mm" reads back as its minutes, with no hours. */
  lemma ParseMinutes(minutes: nat)
    ensures Parse(Decimal(minutes) + "m") == Some(Clock(None, minutes))
  {
    var m := Decimal(minutes);
    DecimalRoundTrip(minutes);
    ParseClosed(m);
    DigitsHaveNoH(m);
    IndexOfHSkip(m, []);
    assert m + [] == m;
  }

  /**
   * The text `Render` writes encodes exactly the total it was given: the hours
   * appear only for a total of an hour or more, and the minutes stay below 60.
   */
  lemma ParseRender(total: nat)
    ensures var c := Parse(Render(total));
      && c.Some?
      && TotalMinutes(c.value) == total
      && c.value.minutes < 60
      && (c.value.hours.Some? <==> total >= 60)
      && (c.value.hours.Some? ==> c.value.hours.value > 0)
  {
    if total / 60 > 0 {
      ParseHoursMinutes(total / 60, total % 60);
    } else {
      ParseMinutes(total % 60);
    }
  }
}

/**
 * The liveness check's uptime text: whole days, then the hours, minutes and
 * seconds left over, each at least two digits wide, as `DDdHHhMMmSSs`.
 */
module Health {
  import opened Text

  const SecondsPerDay: nat := 86400

  /** An uptime split into its fields. */
  datatype Uptime = Uptime(days: nat, hours: nat, minutes: nat, seconds: nat)

  /** The seconds an uptime stands for. */
  function Seconds(u: Uptime): nat
  {
    u.days * SecondsPerDay + u.hours * 3600 + u.minutes * 60 + u.seconds
  }

  /** An uptime whose fields below days are in range. */
  predicate Normal(u: Uptime)
  {
    u.hours < 24 && u.minutes < 60 && u.seconds < 60
  }

  /**
   * The fields `format_uptime` computes: `num_days`, `num_hours % 24`,
   * `num_minutes % 60`, `num_seconds % 60`. The duration is never
   * negative, so truncating and flooring division agree.
   */
  function Split(t: nat): (u: Uptime)
    ensures Normal(u) && Seconds(u) == t
    ensures u.days == t / SecondsPerDay
  {
    var m := t / 60;
    var h := t / 3600;
    assert h == m / 60 by { DivModUnique(m / 60, (m % 60) * 60 + t % 60, 3600, t); }
    assert t / 86400 == h / 24 by { DivModUnique(h / 24, (h % 24) * 3600 + t % 3600, 86400, t); }
    Uptime(t / 86400, h % 24, m % 60, t % 60)
  }

  /** The split is the only normal one: two normal uptimes for the same seconds are the same. */
  lemma SplitUnique(u: Uptime, t: nat)
    requires Normal(u) && Seconds(u) == t
    ensures u == Split(t)
  {
    var v := Split(t);
    assert u.seconds == t % 60 && v.seconds == t % 60 by {
      DivModUnique(u.days * 1440 + u.hours * 60 + u.minutes, u.seconds, 60, t);
    }
    var m := t / 60;
    assert u.minutes == m % 60 by {
      DivModUnique(u.days * 1440 + u.hours * 60 + u.minutes, u.seconds, 60, t);
      DivModUnique(u.days * 24 + u.hours, u.minutes, 60, m);
    }
    var h := m / 60;
    assert h == t / 3600;
    assert u.hours == h % 24 && u.days == h / 24 by {
      DivModUnique(u.days * 1440 + u.hours * 60 + u.minutes, u.seconds, 60, t);
      DivModUnique(u.days * 24 + u.hours, u.minutes, 60, m);
      DivModUnique(u.days, u.hours, 24, h);
    }
    assert t / 86400 == h / 24;
  }

  /** Quotient and remainder are determined by the value. */
  lemma DivModUnique(q: nat, r: nat, d: nat, n: nat)
    requires 0 < d && r < d && q * d + r == n
    ensures n / d == q && n % d == r
  {
    var q', r' := n / d, n % d;
    if q' > q {
      MulAtLeast(q' - q, q', q, d);
    } else if q' < q {
      MulAtLeast(q - q', q, q', d);
    }
  }

  /** A positive multiple of `d` is at least `d`. */
  lemma MulAtLeast(k: nat, a: nat, b: nat, d: nat)
    requires k == a - b && k >= 1
    ensures a * d - b * d >= d
  {
    assert a * d - b * d == k * d;
    assert k * d == (k - 1) * d + d;
  }

  /** `{n:02}`: the decimal digits, with a leading zero below ten. */
  function Pad2(n: nat): (r: string)
    ensures |r| >= 2 && DecimalValue(r) == n
    ensures n < 100 ==> |r| == 2
    ensures forall i :: 0 <= i < |r| ==> '0' <= r[i] <= '9'
    ensures n >= 10 ==> r == DecimalDigits(n)
    ensures n < 10 ==> r[0] == '0'
    ensures n < 100 <==> |r| == 2
    ensures |r| > 2 ==> r[0] != '0'
  {
    DecimalRoundTrip(n);
    DecimalDigitsShort(n);
    if n < 10 then
      var d := DecimalDigits(n);
      assert DecimalValue("0" + d) == n by {
        assert ("0" + d)[..1] == "0";
      }
      "0" + d
    else DecimalDigits(n)
  }

  /** `format_uptime`: the four padded fields, each followed by its unit letter. */
  function FormatUptime(t: nat): (r: string)
    ensures |r| >= 12
    ensures r[|r| - 1] == 's' && r[|r| - 4] == 'm' && r[|r| - 7] == 'h' && r[|r| - 10] == 'd'
    ensures var u := Split(t);
      DecimalValue(r[..|r| - 10]) == u.days && DecimalValue(r[|r| - 9..|r| - 7]) == u.hours &&
      DecimalValue(r[|r| - 6..|r| - 4]) == u.minutes && DecimalValue(r[|r| - 3..|r| - 1]) == u.seconds
    ensures forall i :: 0 <= i < |r| && i != |r| - 1 && i != |r| - 4 && i != |r| - 7 && i != |r| - 10 ==> '0' <= r[i] <= '9'
    ensures Split(t).days < 100 <==> |r| == 12
    ensures |r| > 12 ==> r[0] != '0'
  {
    var u := Split(t);
    var d := Pad2(u.days);
    var h := Pad2(u.hours);
    var m := Pad2(u.minutes);
    var s := Pad2(u.seconds);
    Join(d, h, m, s)
  }

  /** The four fields, each followed by its unit letter, the last three two characters wide. */
  function Join(d: string, h: string, m: string, s: string): (r: string)
    requires |d| >= 1 && |h| == 2 && |m| == 2 && |s| == 2
    requires forall i :: 0 <= i < |d| ==> '0' <= d[i] <= '9'
    requires forall i :: 0 <= i < 2 ==> '0' <= h[i] <= '9' && '0' <= m[i] <= '9' && '0' <= s[i] <= '9'
    ensures |r| == |d| + 10 && r[0] == d[0]
    ensures r[|r| - 1] == 's' && r[|r| - 4] == 'm' && r[|r| - 7] == 'h' && r[|r| - 10] == 'd'
    ensures r[..|r| - 10] == d && r[|r| - 9..|r| - 7] == h && r[|r| - 6..|r| - 4] == m && r[|r| - 3..|r| - 1] == s
    ensures forall i :: 0 <= i < |r| && i != |r| - 1 && i != |r| - 4 && i != |r| - 7 && i != |r| - 10 ==> '0' <= r[i] <= '9'
  {
    Layout(d, h, m, s);
    LayoutDigits(d, h, m, s);
    LayoutFirst(d, h, m, s);
    d + "d" + h + "h" + m + "m" + s + "s"
  }

  /** Where each field sits in the text when the last three are two characters wide. */
  lemma Layout(d: string, h: string, m: string, s: string)
    requires |h| == 2 && |m| == 2 && |s| == 2
    ensures var r := d + "d" + h + "h" + m + "m" + s + "s";
      |r| == |d| + 10 && r[|r| - 1] == 's' && r[|r| - 4] == 'm' && r[|r| - 7] == 'h' && r[|r| - 10] == 'd' &&
      r[..|r| - 10] == d && r[|r| - 9..|r| - 7] == h && r[|r| - 6..|r| - 4] == m && r[|r| - 3..|r| - 1] == s
  {
  }

  /** The text starts with the days field. */
  lemma LayoutFirst(d: string, h: string, m: string, s: string)
    requires |d| >= 1
    ensures (d + "d" + h + "h" + m + "m" + s + "s")[0] == d[0]
  {
  }

  /** The text is all digits apart from the four unit letters when each field is. */
  lemma LayoutDigits(d: string, h: string, m: string, s: string)
    requires |h| == 2 && |m| == 2 && |s| == 2
    requires forall i :: 0 <= i < |d| ==> '0' <= d[i] <= '9'
    requires forall i :: 0 <= i < 2 ==> '0' <= h[i] <= '9' && '0' <= m[i] <= '9' && '0' <= s[i] <= '9'
    ensures var r := d + "d" + h + "h" + m + "m" + s + "s";
      forall i :: 0 <= i < |r| && i != |r| - 1 && i != |r| - 4 && i != |r| - 7 && i != |r| - 10 ==> '0' <= r[i] <= '9'
  {
    var r := d + "d" + h + "h" + m + "m" + s + "s";
    forall i | 0 <= i < |r| && i != |r| - 1 && i != |r| - 4 && i != |r| - 7 && i != |r| - 10
      ensures '0' <= r[i] <= '9'
    {
      var n := |d|;
      if i < n {
        assert r[i] == d[i];
      } else if i < n + 3 {
        assert r[i] == h[i - n - 1];
      } else if i < n + 6 {
        assert r[i] == m[i - n - 4];
      } else {
        assert r[i] == s[i - n - 7];
      }
    }
  }

  /** Reading the four fields back out of the text gives the uptime in seconds. */
  lemma {:induction false} FormatUptimeReadsBack(t: nat)
    ensures var r := FormatUptime(t);
      DecimalValue(r[..|r| - 10]) * SecondsPerDay + DecimalValue(r[|r| - 9..|r| - 7]) * 3600 +
      DecimalValue(r[|r| - 6..|r| - 4]) * 60 + DecimalValue(r[|r| - 3..|r| - 1]) == t
  {
    var u := Split(t);
    assert Seconds(u) == t;
  }

  /** One day, one hour, one minute and one second. */
  lemma OneOfEach()
    ensures FormatUptime(90061) == "01d01h01m01s"
  {
    assert Split(90061) == Uptime(1, 1, 1, 1);
  }

  /** A process that has just started. */
  lemma JustStarted()
    ensures FormatUptime(0) == "00d00h00m00s"
  {
    assert Split(0) == Uptime(0, 0, 0, 0);
  }

  /** Days are not wrapped: a hundred days take three digits. */
  lemma HundredDays()
    ensures FormatUptime(100 * 86400) == "100d00h00m00s"
  {
    HundredDaysSplit();
    HundredPadded();
    assert FormatUptime(100 * 86400) == Pad2(100) + "d" + Pad2(0) + "h" + Pad2(0) + "m" + Pad2(0) + "s";
  }

  lemma HundredDaysSplit()
    ensures Split(100 * 86400) == Uptime(100, 0, 0, 0)
  {
  }

  /** The padded fields of one hundred and of zero. */
  lemma HundredPadded()
    ensures Pad2(100) == "100" && Pad2(0) == "00"
  {
    assert DecimalDigits(1) == "1";
    assert DecimalDigits(10) == "10";
    assert DecimalDigits(100) == "100";
  }
}

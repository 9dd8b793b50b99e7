/** The pieces of the admin page (client/src/pages/admin.tsx) that compute
    something: the uptime text and the Active badge of a feed. */
module AdminPage {
  import opened Common
  import AdminStats

  /** The two numbers an uptime text shows, with their unit letters. */
  datatype UptimeText = UptimeText(lead: int, leadUnit: string, rest: int, restUnit: string)

  /** formatUptime before rendering: whole seconds, minutes, hours and days
      by floor division (Dafny's `/` by a positive divisor is the floor),
      and the remainder operator of JavaScript, which keeps the sign of
      the dividend. */
  function UptimeParts(ms: int): UptimeText {
    var seconds := ms / 1000;
    var minutes := seconds / 60;
    var hours := minutes / 60;
    var days := hours / 24;
    if days > 0 then UptimeText(days, "d", JsRem(hours, 24), "h")
    else if hours > 0 then UptimeText(hours, "h", JsRem(minutes, 60), "m")
    else UptimeText(minutes, "m", JsRem(seconds, 60), "s")
  }

  /** The template string `${lead}{unit} ${rest}{unit}`. */
  function Render(t: UptimeText): string {
    IntToString(t.lead) + (t.leadUnit + (" " + (IntToString(t.rest) + t.restUnit)))
  }

  /** The unit of a number is one letter, never a digit. */
  predicate UnitLetter(u: string) {
    |u| == 1 && !('0' <= u[0] <= '9')
  }

  /** formatUptime. */
  function FormatUptime(ms: int): string {
    Render(UptimeParts(ms))
  }

  /** For a non-negative duration the text truncates it to the coarsest
      unit that is non-zero and the next one down: a day or more shows
      whole days and the hours past them, an hour or more whole hours and
      the minutes past them, anything shorter minutes and seconds; the
      second number is always below its unit's bound. */
  lemma UptimeMeaning(ms: int)
    requires ms >= 0
    ensures var t := UptimeParts(ms);
      && 0 <= t.rest
      && (ms >= 86400000 ==>
            (t.leadUnit == "d" && t.restUnit == "h" && t.lead > 0 && t.rest < 24
             && t.lead * 24 + t.rest == ms / 3600000))
      && (3600000 <= ms < 86400000 ==>
            (t.leadUnit == "h" && t.restUnit == "m" && 0 < t.lead < 24 && t.rest < 60
             && t.lead * 60 + t.rest == ms / 60000))
      && (ms < 3600000 ==>
            (t.leadUnit == "m" && t.restUnit == "s" && 0 <= t.lead < 60 && t.rest < 60
             && t.lead * 60 + t.rest == ms / 1000))
  {
    var seconds := ms / 1000;
    var minutes := seconds / 60;
    var hours := minutes / 60;
    assert minutes == ms / 60000;
    assert hours == ms / 3600000;
    assert hours / 24 == ms / 86400000;
  }

  /** Two uptime texts are equal only when they show the same numbers in
      the same units: the rendering loses nothing. */
  lemma RenderInjective(a: UptimeText, b: UptimeText)
    requires UnitLetter(a.leadUnit) && UnitLetter(b.leadUnit)
    requires UnitLetter(a.restUnit) && UnitLetter(b.restUnit)
    requires Render(a) == Render(b)
    ensures a == b
  {
    var ra, rb := IntToString(a.rest) + a.restUnit, IntToString(b.rest) + b.restUnit;
    var ta, tb := a.leadUnit + (" " + ra), b.leadUnit + (" " + rb);
    NumberThenText(a.lead, b.lead, ta, tb);
    assert a.leadUnit == ta[..1] == tb[..1] == b.leadUnit;
    assert ra == ta[2..] == tb[2..] == rb;
    NumberThenText(a.rest, b.rest, a.restUnit, b.restUnit);
  }

  /** Hence two durations read the same exactly when they
      agree in the units shown. */
  lemma FormatUptimeSameText(ms1: int, ms2: int)
    ensures FormatUptime(ms1) == FormatUptime(ms2) <==> UptimeParts(ms1) == UptimeParts(ms2)
  {
    if FormatUptime(ms1) == FormatUptime(ms2) {
      RenderInjective(UptimeParts(ms1), UptimeParts(ms2));
    }
  }

  /** The Active badge of a feed: it has succeeded at least once. */
  predicate FeedActive(f: AdminStats.FeedStat) {
    f.successCount > 0
  }

  /** A success recorded on a known feed makes it show as Active, and an
      error never changes which feeds do. */
  lemma ActiveAfterRecording(f: AdminStats.FeedTotals, url: string, articleCount: nat, now: int, error: string)
    requires AdminStats.IndexOf(f.feedStats, url).Some?
    ensures var i := AdminStats.IndexOf(f.feedStats, url).value;
      FeedActive(AdminStats.FeedSucceeded(f, url, articleCount, now).feedStats[i])
    ensures var g := AdminStats.FeedFailed(f, url, error);
      |g.feedStats| == |f.feedStats|
      && forall j :: 0 <= j < |f.feedStats| ==> (FeedActive(g.feedStats[j]) <==> FeedActive(f.feedStats[j]))
  {
  }
}

/**
 * Presentation helpers shared by the project card and the case-study page:
 * the duration line, the banner initials, the colour tone of each project
 * type, and what the optional fields put on the page: JavaScript truthiness
 * decides whether a badge or a button is rendered, and a zero metric leaves
 * a stray "0".
 */
module Display {
  import opened Optional
  import opened Seqs
  import opened Text
  import opened Content

  /**
   * A date field is "set" when it is present and not the empty string:
   * the pages test it with JavaScript truthiness.
   */
  predicate IsSet(s: Option<string>) {
    s.Some? && s.value != ""
  }

  /** The arrow that separates the two dates of a duration. */
  const Arrow: string := " → "

  /**
   * The text after the arrow: the formatted end date, or "Ongoing" when the
   * project has no end. `fmt` stands for the locale date formatter.
   */
  function EndText(d: Duration, fmt: string -> string): (r: string)
    ensures !IsSet(d.end) ==> r == "Ongoing"
    ensures IsSet(d.end) ==> r == fmt(d.end.value)
  {
    if IsSet(d.end) then fmt(d.end.value) else "Ongoing"
  }

  /** `formatDuration`: "<start> → <end>". */
  function DurationText(d: Duration, fmt: string -> string): string {
    fmt(d.start) + Arrow + EndText(d, fmt)
  }

  /**
   * The duration line splits back at the arrow into the formatted start
   * date and the end text, so the two halves can always be read back.
   */
  lemma DurationTextParts(d: Duration, fmt: string -> string)
    ensures var r, n := DurationText(d, fmt), |fmt(d.start)|;
      n + 3 <= |r| &&
      r[..n] == fmt(d.start) &&
      r[n..n + 3] == Arrow &&
      r[n + 3..] == EndText(d, fmt)
  {
    var r, n := DurationText(d, fmt), |fmt(d.start)|;
    assert r == fmt(d.start) + (Arrow + EndText(d, fmt));
    assert r[n..] == Arrow + EndText(d, fmt);
    assert r[n..][..3] == Arrow;
    assert r[n..][3..] == EndText(d, fmt);
  }

  /**
   * An ongoing project and a finished one never share a duration line, as
   * long as the formatter never produces the word "Ongoing".
   */
  lemma OngoingIsDistinguishable(d: Duration, e: Duration, fmt: string -> string)
    requires d.start == e.start && !IsSet(d.end) && IsSet(e.end)
    requires fmt(e.end.value) != "Ongoing"
    ensures DurationText(d, fmt) != DurationText(e, fmt)
  {
    DurationTextParts(d, fmt);
    DurationTextParts(e, fmt);
  }

  /**
   * The banner initials: the first character of every space-separated word,
   * concatenated, then cut to two characters. An empty word (two spaces in a
   * row) contributes nothing.
   */
  function Initials(title: string): (r: string)
    ensures |r| <= 2
    ensures r == Take(WordStarts(title, true), 2)
  {
    FirstCharsOfSplit(title);
    Take(ConcatFirstChars(Split(title, ' ')), 2)
  }

  /** Every initial is a non-space character of the title. */
  lemma InitialsAreTitleLetters(title: string)
    ensures forall k :: 0 <= k < |Initials(title)| ==> Initials(title)[k] != ' ' && Initials(title)[k] in title
  {
    var w := WordStarts(title, true);
    var r := Initials(title);
    forall k | 0 <= k < |r| ensures r[k] != ' ' && r[k] in title {
      assert r + w[|r|..] == w;
      assert r[k] == w[k];
    }
  }

  /** The four colour tones of the design system. */
  datatype Tone = SuccessTone | PrimaryTone | DestructiveTone | WarningTone

  /** The solid badge class of a tone ("bg-<tone> text-<tone>-foreground"). */
  function SolidBadge(tone: Tone): string {
    match tone
    case SuccessTone => "bg-success text-success-foreground"
    case PrimaryTone => "bg-primary text-primary-foreground"
    case DestructiveTone => "bg-destructive text-destructive-foreground"
    case WarningTone => "bg-warning text-warning-foreground"
  }

  /** The tinted badge class of a tone (text, a faint border and a faint background). */
  function TintedBadge(tone: Tone): string {
    match tone
    case SuccessTone => "text-success border-success/20 bg-success/10"
    case PrimaryTone => "text-primary border-primary/20 bg-primary/10"
    case DestructiveTone => "text-destructive border-destructive/20 bg-destructive/10"
    case WarningTone => "text-warning border-warning/20 bg-warning/10"
  }

  /** Different tones give different classes, so a badge's class names its tone. */
  lemma BadgeClassesDistinguishTones(a: Tone, b: Tone)
    requires SolidBadge(a) == SolidBadge(b) || TintedBadge(a) == TintedBadge(b)
    ensures a == b
  {
  }

  /**
   * The tone every page gives a project type: Success is "success", Free
   * Tool "primary", Failed "destructive", Ongoing "warning".
   */
  function ToneOf(t: ProjectType): Tone {
    match t
    case Success => SuccessTone
    case FreeTool => PrimaryTone
    case Failed => DestructiveTone
    case Ongoing => WarningTone
  }

  /** Every type has its own tone. */
  lemma ToneOfInjective(s: ProjectType, t: ProjectType)
    requires ToneOf(s) == ToneOf(t)
    ensures s == t
  {
  }

  /** The visible live link of a project, if the button is rendered. */
  function LiveLink(p: Project): (r: Option<string>)
    ensures r.Some? <==> p.links.Some? && IsSet(p.links.value.live)
    ensures r.Some? ==> r.value != "" && Some(r.value) == p.links.value.live
  {
    if p.links.Some? && IsSet(p.links.value.live) then p.links.value.live else None
  }

  /**
   * The text of the ARR badge, if it is rendered: `arrMilestone` when it is
   * present and non-empty (an empty string renders nothing).
   */
  function ArrBadge(p: Project): (r: Option<string>)
    ensures r.Some? <==> IsSet(p.arrMilestone)
    ensures r.Some? ==> r.value != "" && Some(r.value) == p.arrMilestone
  {
    if IsSet(p.arrMilestone) then p.arrMilestone else None
  }

  /** The users metric of a project; absent when the project has no metrics. */
  function UsersOf(p: Project): Option<int> {
    if p.metrics.Some? then p.metrics.value.users else None
  }

  /** The revenue metric of a project; absent when the project has no metrics. */
  function RevenueOf(p: Project): Option<int> {
    if p.metrics.Some? then p.metrics.value.revenue else None
  }

  /** What a metric slot puts on the page. */
  datatype MetricSlot = Blank | StrayZero | MetricBadge(value: int)

  /**
   * `{n && <Badge/>}` as React renders it: nothing for an absent number, but
   * for 0 the expression is the number 0 itself, which React prints as the
   * text "0".
   */
  function RenderedMetric(n: Option<int>): (s: MetricSlot)
    ensures s == Blank <==> n.None?
    ensures s == StrayZero <==> n == Some(0)
    ensures s.MetricBadge? ==> n == Some(s.value) && s.value != 0
  {
    match n
    case None => Blank
    case Some(v) => if v == 0 then StrayZero else MetricBadge(v)
  }

  /** The evidently intended slot: the badge for a non-zero number, otherwise nothing. */
  function IntendedMetric(n: Option<int>): (s: MetricSlot)
    ensures s != StrayZero
    ensures s.MetricBadge? <==> n.Some? && n.value != 0
    ensures s.MetricBadge? ==> s.value == n.value
  {
    if n.Some? && n.value != 0 then MetricBadge(n.value) else Blank
  }

  /** The two slots differ exactly on a zero metric. */
  lemma IntendedMetricDiffersOnlyOnZero(n: Option<int>)
    ensures IntendedMetric(n) == RenderedMetric(n) <==> n != Some(0)
    ensures n == Some(0) ==> RenderedMetric(n) == StrayZero && IntendedMetric(n) == Blank
  {
  }

  /**
   * As written, every shipped project prints a stray "0" in its revenue
   * slot (every revenue is 0), and six of them, starting with
   * "Dating-App-Website", also in their users slot.
   */
  lemma StrayZeroInData()
    ensures forall i | 0 <= i < |Projects| :: RenderedMetric(RevenueOf(Projects[i])) == StrayZero
    ensures Projects[2].id == "Dating-App-Website" && RenderedMetric(UsersOf(Projects[2])) == StrayZero
    ensures forall i | 0 <= i < |Projects| :: RenderedMetric(UsersOf(Projects[i])) == StrayZero <==> ZeroUsersIndex(i)
  {
    forall i | 0 <= i < |Projects| ensures RevenueOf(Projects[i]) == Some(0) {
      if i == 0 {} else if i == 1 {} else if i == 2 {} else if i == 3 {}
      else if i == 4 {} else if i == 5 {} else if i == 6 {} else if i == 7 {}
      else if i == 8 {} else if i == 9 {} else if i == 10 {} else if i == 11 {}
      else {}
    }
    StrayUsersInData();
  }

  /**
   * The shipped projects with `users: 0`: "Dating-App-Website", "Web-Agency",
   * "Data-Agency", "Saas-Boilerplate", "Barbeon" and "Internship-Scraper".
   */
  predicate ZeroUsersIndex(i: int) {
    i == 2 || i == 3 || i == 4 || i == 7 || i == 9 || i == 12
  }

  /** As written, exactly the six projects with zero users print a stray "0" in their users slot. */
  lemma StrayUsersInData()
    ensures forall i | 0 <= i < |Projects| :: RenderedMetric(UsersOf(Projects[i])) == StrayZero <==> ZeroUsersIndex(i)
  {
    forall i | 0 <= i < |Projects| ensures UsersOf(Projects[i]) == Some(0) <==> ZeroUsersIndex(i) {
      if i == 0 {} else if i == 1 {} else if i == 2 {} else if i == 3 {}
      else if i == 4 {} else if i == 5 {} else if i == 6 {} else if i == 7 {}
      else if i == 8 {} else if i == 9 {} else if i == 10 {} else if i == 11 {}
      else {}
    }
  }

  /** With the intended slot, no shipped project shows anything for its revenue. */
  lemma NoRevenueBadgeInData()
    ensures forall i | 0 <= i < |Projects| :: IntendedMetric(RevenueOf(Projects[i])) == Blank
  {
    StrayZeroInData();
    forall i | 0 <= i < |Projects| ensures IntendedMetric(RevenueOf(Projects[i])) == Blank {
      IntendedMetricDiffersOnlyOnZero(RevenueOf(Projects[i]));
    }
  }
}

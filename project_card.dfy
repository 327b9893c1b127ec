/**
 * The project card: type badge, duration line, at most four tag badges with
 * a "+N more" badge, and the links to the case study and the live site.
 */
module ProjectCard {
  import opened Optional
  import opened Seqs
  import opened Text
  import opened Content
  import opened Display
  import opened CaseStudy

  /** The icons a type badge can carry. */
  datatype CardIcon = TrendingUpIcon | UsersIcon | CalendarIcon

  /** One row of `typeConfig`. */
  datatype TypeStyle = TypeStyle(color: string, icon: CardIcon, gradient: string)

  /** `typeConfig`: badge colour, icon and banner gradient per project type. */
  function TypeConfig(t: ProjectType): TypeStyle {
    match t
    case Success => TypeStyle("bg-success text-success-foreground", TrendingUpIcon, "success-gradient")
    case FreeTool => TypeStyle("bg-primary text-primary-foreground", UsersIcon, "hero-gradient")
    case Failed => TypeStyle("bg-destructive text-destructive-foreground", CalendarIcon, "bg-destructive")
    case Ongoing => TypeStyle("bg-warning text-warning-foreground", CalendarIcon, "bg-warning")
  }

  /**
   * The card's type badge has the solid class of the type's tone, the same
   * class a related-project badge on the case-study page has.
   */
  lemma TypeConfigUsesTone(t: ProjectType)
    ensures TypeConfig(t).color == SolidBadge(ToneOf(t))
    ensures TypeConfig(t).color == RelatedBadge(t)
  {
    RelatedBadgeUsesTone(t);
  }

  /** Failed and Ongoing share the calendar icon; every other type has its own. */
  lemma TypeIcons(t: ProjectType)
    ensures TypeConfig(t).icon == CalendarIcon <==> t == ProjectType.Failed || t == Ongoing
    ensures TypeConfig(t).icon == TrendingUpIcon <==> t == Success
    ensures TypeConfig(t).icon == UsersIcon <==> t == FreeTool
  {
  }

  /** The tag badges on a card: the first four tags. */
  function ShownTags(tags: seq<string>): (r: seq<string>)
    ensures |r| <= 4
    ensures r <= tags
  {
    var r := Take(tags, 4);
    assert r + tags[|r|..] == tags;
    r
  }

  /** The "+N more" badge, present only when there are more than four tags. */
  function MoreTags(tags: seq<string>): (r: Option<nat>)
    ensures r.Some? <==> |tags| > 4
  {
    if |tags| > 4 then Some(|tags| - 4) else None
  }

  /** The shown tags and the "+N more" count together account for every tag. */
  lemma TagBadgesCountEveryTag(tags: seq<string>)
    ensures |ShownTags(tags)| + MoreTags(tags).GetOr(0) == |tags|
    ensures MoreTags(tags).Some? ==> |ShownTags(tags)| == 4 && MoreTags(tags).value > 0
    ensures MoreTags(tags).None? ==> ShownTags(tags) == tags
  {
    var r := ShownTags(tags);
    assert r + tags[|r|..] == tags;
  }

  /** The text of the "+N more" badge. */
  function MoreLabel(n: nat): (r: string)
    ensures |r| >= 7 && r[0] == '+' && r[|r| - 5..] == " more"
    ensures forall k :: 1 <= k < |r| - 5 ==> IsDigit(r[k])
    ensures DigitsValue(r[1..|r| - 5]) == n
    ensures |r| > 7 ==> r[1] != '0'
  {
    var digits := NatToString(n);
    var r := "+" + digits + " more";
    assert r[1..|r| - 5] == digits;
    NatToStringValue(n);
    r
  }

  /** The route prefix of a case study. */
  const CaseStudyPrefix: string := "/case-study/"

  /** The "View Case Study" link. */
  function CaseStudyLink(id: string): string {
    CaseStudyPrefix + id
  }

  /**
   * The `:id` parameter of a path under "/case-study/": the rest of the
   * path, when it is one non-empty segment.
   */
  function RouteParam(path: string): (r: Option<string>)
    ensures r.Some? ==> r.value != "" && '/' !in r.value && path == CaseStudyPrefix + r.value
  {
    if StartsWith(path, CaseStudyPrefix) && |path| > |CaseStudyPrefix| && '/' !in path[|CaseStudyPrefix|..] then
      assert path == path[..|CaseStudyPrefix|] + path[|CaseStudyPrefix|..];
      Some(path[|CaseStudyPrefix|..])
    else None
  }

  /** A link built from an id routes back to that id. */
  lemma LinkRoundTrip(id: string)
    requires id != "" && '/' !in id
    ensures RouteParam(CaseStudyLink(id)) == Some(id)
  {
    var path := CaseStudyLink(id);
    assert path[..|CaseStudyPrefix|] == CaseStudyPrefix;
    assert path[|CaseStudyPrefix|..] == id;
  }

  /** No shipped id is empty or contains a slash. */
  lemma IdsAreRouteSegments()
    ensures forall i | 0 <= i < |Projects| :: '/' !in Projects[i].id && |Projects[i].id| > 0
  {
    ProjectsTabulated();
    IdListIsSegments();
  }

  lemma IdListIsSegments()
    ensures forall i | 0 <= i < |ProjectIds| :: '/' !in ProjectIds[i] && |ProjectIds[i]| > 0
  {
  }

  /** Every card's "View Case Study" link opens that project's page, never the redirect. */
  lemma CardLinkOpensCaseStudy(i: nat)
    requires i < |Projects|
    ensures RouteParam(CaseStudyLink(Projects[i].id)).Some?
    ensures Route(RouteParam(CaseStudyLink(Projects[i].id)).value) == Page(Projects[i])
  {
    IdsAreRouteSegments();
    LinkRoundTrip(Projects[i].id);
    FindProjectInData(i);
  }

  /** The "Visit Live" button is rendered iff the project has a non-empty live link. */
  predicate ShowVisitLive(p: Project) {
    LiveLink(p).Some?
  }

  /** Card and case-study page agree on when a project has a live link. */
  lemma VisitLiveMatchesLiveLink(p: Project)
    ensures ShowVisitLive(p) <==> p.links.Some? && p.links.value.live.Some? && p.links.value.live.value != ""
  {
  }
}

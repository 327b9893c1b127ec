/**
 * The case-study page for one project, chosen by the `:id` route parameter:
 * an unknown id redirects to the portfolio, a known one renders the status
 * badge, SEO fields, duration, lessons and two related projects.
 */
module CaseStudy {
  import opened Optional
  import opened Seqs
  import opened Text
  import opened Content
  import opened Display

  /** `projects.find(p => p.id === id)`: the first project with that id. */
  function FindProject(projects: seq<Project>, id: string): (r: Option<Project>)
    ensures r.None? <==> forall k :: 0 <= k < |projects| ==> projects[k].id != id
    ensures r.Some? ==> r.value.id == id
    ensures r.Some? ==> exists k :: 0 <= k < |projects| && projects[k] == r.value &&
                                    forall m :: 0 <= m < k ==> projects[m].id != id
  {
    if projects == [] then None
    else if projects[0].id == id then Some(projects[0])
    else
      var r := FindProject(projects[1..], id);
      if r.Some? then
        var k :| 0 <= k < |projects[1..]| && projects[1..][k] == r.value &&
                 forall m :: 0 <= m < k ==> projects[1..][m].id != id;
        assert projects[k + 1] == r.value;
        assert forall m :: 1 <= m < k + 1 ==> projects[m] == projects[1..][m - 1];
        r
      else r
  }

  /** Ids are unique, so the project found for an id is the only one with it. */
  lemma FindProjectInData(i: nat)
    requires i < |Projects|
    ensures FindProject(Projects, Projects[i].id) == Some(Projects[i])
  {
    ProjectIdsDistinct();
    FindUnique(Projects, i);
  }

  /** With pairwise distinct ids, looking up the id of entry `i` finds entry `i`. */
  lemma FindUnique(projects: seq<Project>, i: nat)
    requires i < |projects|
    requires forall a, b :: 0 <= a < b < |projects| ==> projects[a].id != projects[b].id
    ensures FindProject(projects, projects[i].id) == Some(projects[i])
  {
    var r := FindProject(projects, projects[i].id);
    assert r.Some?;
    var k :| 0 <= k < |projects| && projects[k] == r.value && forall m :: 0 <= m < k ==> projects[m].id != projects[i].id;
    assert projects[k].id == projects[i].id;
  }

  /** What the route renders: a redirect, or the page of one project. */
  datatype View = Redirect(to: string) | Page(project: Project)

  /** The route `/case-study/:id`. */
  function Route(id: string): (v: View)
    ensures v.Redirect? <==> forall k :: 0 <= k < |Projects| ==> Projects[k].id != id
    ensures v.Redirect? ==> v.to == "/portfolio"
    ensures v.Page? ==> v.project in Projects && v.project.id == id
  {
    match FindProject(Projects, id)
    case None => Redirect("/portfolio")
    case Some(p) => Page(p)
  }

  /** The three status icons. */
  datatype StatusIcon = CheckCircle | XCircle | TrendingUp

  /** `getStatusIcon`: a tick for Success, a cross for Failed, a trend otherwise. */
  function GetStatusIcon(t: ProjectType): StatusIcon {
    match t
    case Success => CheckCircle
    case Failed => XCircle
    case _ => TrendingUp
  }

  /** Success and Failed each have an icon of their own; the other two share one. */
  lemma StatusIconCases(t: ProjectType)
    ensures GetStatusIcon(t) == CheckCircle <==> t == Success
    ensures GetStatusIcon(t) == XCircle <==> t == ProjectType.Failed
    ensures GetStatusIcon(t) == TrendingUp <==> t == FreeTool || t == Ongoing
  {
  }

  /** `getStatusColor`. */
  function GetStatusColor(t: ProjectType): string {
    match t
    case Success => "text-success border-success/20 bg-success/10"
    case Failed => "text-destructive border-destructive/20 bg-destructive/10"
    case FreeTool => "text-primary border-primary/20 bg-primary/10"
    case _ => "text-warning border-warning/20 bg-warning/10"
  }

  /** The status badge uses the tinted class of the type's tone. */
  lemma StatusColorUsesTone(t: ProjectType)
    ensures GetStatusColor(t) == TintedBadge(ToneOf(t))
  {
  }

  /** The badge colour of a related project. */
  function RelatedBadge(t: ProjectType): string {
    if t == Success then "bg-success text-success-foreground"
    else if t == ProjectType.Failed then "bg-destructive text-destructive-foreground"
    else if t == FreeTool then "bg-primary text-primary-foreground"
    else "bg-warning text-warning-foreground"
  }

  /** The related-project badge is the solid badge of the type's tone. */
  lemma RelatedBadgeUsesTone(t: ProjectType)
    ensures RelatedBadge(t) == SolidBadge(ToneOf(t))
  {
  }

  function NotId(id: string): Project -> bool {
    (p: Project) => p.id != id
  }

  /** "More Projects": the first two other projects, in list order. */
  function RelatedProjects(projects: seq<Project>, current: Project): (r: seq<Project>)
    ensures |r| <= 2
    ensures IsSubsequence(r, projects)
    ensures forall p :: p in r ==> p in projects && p.id != current.id
    ensures r == Take(Filter(projects, NotId(current.id)), 2)
  {
    var others := Filter(projects, NotId(current.id));
    FilterIsSubsequence(projects, NotId(current.id));
    TakeIsSubsequence(others, 2);
    SubsequenceTransitive(Take(others, 2), others, projects);
    assert Take(others, 2) + others[|Take(others, 2)|..] == others;
    forall p | p in Take(others, 2) ensures p in others {
      assert p in Take(others, 2) + others[|Take(others, 2)|..];
    }
    Take(others, 2)
  }

  /** With at least two other projects, exactly two are shown. */
  lemma RelatedCount(projects: seq<Project>, current: Project)
    requires exists a, b :: 0 <= a < b < |projects| && projects[a].id != current.id && projects[b].id != current.id
    ensures |RelatedProjects(projects, current)| == 2
  {
    var a, b :| 0 <= a < b < |projects| && projects[a].id != current.id && projects[b].id != current.id;
    OthersAtLeastTwo(projects, current.id, a, b);
  }

  lemma {:induction false} OthersAtLeastTwo(projects: seq<Project>, id: string, a: nat, b: nat)
    requires a < b < |projects| && projects[a].id != id && projects[b].id != id
    ensures |Filter(projects, NotId(id))| >= 2
    decreases |projects|
  {
    if a == 0 {
      assert projects[1..][b - 1] == projects[b];
      assert projects[b] in Filter(projects[1..], NotId(id));
    } else {
      assert projects[1..][a - 1] == projects[a] && projects[1..][b - 1] == projects[b];
      OthersAtLeastTwo(projects[1..], id, a - 1, b - 1);
    }
  }

  /** The SEO title: the project's title followed by the site suffix. */
  function SeoTitle(p: Project): (r: string)
    ensures |r| == |p.title| + 20 && r[..|p.title|] == p.title && r[|p.title|..] == " Case Study - AxoLab"
  {
    p.title + " Case Study - AxoLab"
  }

  /** Two case studies share an SEO title only when their projects share a title. */
  lemma SeoTitleNamesProject(p: Project, q: Project)
    requires SeoTitle(p) == SeoTitle(q)
    ensures p.title == q.title
  {
    var r := SeoTitle(p);
    assert |p.title| == |q.title|;
    assert p.title == r[..|p.title|] == q.title;
  }

  /** The SEO description: the first 160 characters of the long description and "...". */
  function SeoDescription(longDescription: string): (r: string)
    ensures 3 <= |r| <= 163 && r[|r| - 3..] == "..."
    ensures |longDescription| <= 160 ==> r == longDescription + "..."
    ensures |longDescription| > 160 ==> |r| == 163 && r[..160] == longDescription[..160]
  {
    var head := Take(longDescription, 160);
    assert head + longDescription[|head|..] == longDescription;
    assert |longDescription| > 160 ==> head == longDescription[..160];
    head + "..."
  }

  /** Six projects ship with an empty long description; their SEO description is "...". */
  lemma EmptyLongDescriptionGivesEllipsis()
    ensures forall i | 0 <= i < |Projects| && Projects[i].longDescription == "" :: SeoDescription(Projects[i].longDescription) == "..."
    ensures Projects[0].longDescription == ""
  {
  }

  /** The SEO keywords: the title, the tags joined with ", ", then two fixed words. */
  function Keywords(p: Project): (r: string)
    ensures var n := |p.title|; n + 20 <= |r| && r[..n] == p.title && r[n..n + 2] == ", "
    ensures var n := |p.title|; r[n + 2..|r| - 18] == Join(p.tags, ", ")
    ensures r[|r| - 18..] == ", case study, SaaS"
  {
    var joined := Join(p.tags, ", ");
    var r := p.title + ", " + joined + ", case study, SaaS";
    var n := |p.title|;
    assert r == p.title + (", " + joined + ", case study, SaaS");
    assert r[n..] == ", " + joined + ", case study, SaaS";
    assert r[n..][..2] == ", ";
    assert r[n + 2..] == joined + ", case study, SaaS";
    assert r[n + 2..][..|joined|] == joined;
    r
  }

  /**
   * The lessons section: absent without lessons, otherwise headed "Lessons
   * from Failure" for a failed project and "Key Lessons Learned" for any
   * other.
   */
  function LessonsHeading(p: Project): (r: Option<string>)
    ensures r.Some? <==> p.lessons.Some? && |p.lessons.value| > 0
    ensures r.Some? ==> (r.value == "Lessons from Failure" <==> p.kind == ProjectType.Failed)
    ensures r.Some? ==> (r.value == "Lessons from Failure" || r.value == "Key Lessons Learned")
  {
    if p.lessons.Some? && |p.lessons.value| > 0 then
      Some(if p.kind == ProjectType.Failed then "Lessons from Failure" else "Key Lessons Learned")
    else None
  }

  /** Each lesson is shown with its 1-based number. */
  function NumberedLessons(lessons: seq<string>): (r: seq<(nat, string)>)
    ensures |r| == |lessons|
    ensures forall k :: 0 <= k < |r| ==> r[k] == (k + 1, lessons[k])
  {
    seq(|lessons|, k requires 0 <= k < |lessons| => (k + 1, lessons[k]))
  }

  /** The "View Code" button appears only beside a rendered "Visit Live Site" button. */
  function CodeLink(p: Project): (r: Option<string>)
    ensures r.Some? ==> LiveLink(p).Some? && r.value != ""
    ensures r.Some? <==> LiveLink(p).Some? && IsSet(p.links.value.github)
  {
    if LiveLink(p).Some? && IsSet(p.links.value.github) then p.links.value.github else None
  }

  /** The tech stack sections, in the order of the record's fields. */
  datatype SectionIcon = CodeIcon | DatabaseIcon | WrenchIcon

  function TechSections(s: TechStack): (r: seq<(string, SectionIcon, seq<string>)>)
    ensures |r| == 4
    ensures r[0].0 == "frontend" && r[1].0 == "backend" && r[2].0 == "database" && r[3].0 == "tools"
    ensures r[0].2 == s.frontend && r[1].2 == s.backend && r[2].2 == s.database && r[3].2 == s.tools
  {
    [("frontend", CodeIcon, s.frontend), ("backend", DatabaseIcon, s.backend),
     ("database", DatabaseIcon, s.database), ("tools", WrenchIcon, s.tools)]
  }
}

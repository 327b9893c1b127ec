/**
 * The portfolio page: a project list narrowed by a type selector, a set of
 * technology tags (any one of which may match) and a free-text search, all
 * three combined with AND.
 */
module Portfolio {
  import opened Seqs
  import opened Text
  import opened Content

  /** The options of the type selector; "All" switches the type filter off. */
  const ProjectTypes: seq<string> := ["All", "Success", "Free Tool", "Failed", "Ongoing"]

  /** The technology chips offered as tag filters. */
  const TechTags: seq<string> :=
    ["React", "Node.js", "Python", "PostgreSQL", "Stripe", "SaaS", "Analytics", "Marketing", "SEO"]

  /** The type selector offers "All" and exactly one option per project type. */
  lemma TypeOptionsCoverTypes()
    ensures ProjectTypes[0] == "All"
    ensures forall t: ProjectType :: TypeLabel(t) in ProjectTypes[1..]
    ensures |ProjectTypes| == 5 && NoDup(ProjectTypes)
  {
    forall t: ProjectType ensures TypeLabel(t) in ProjectTypes[1..] {
      match t
      case Success => assert ProjectTypes[1..][0] == TypeLabel(t);
      case FreeTool => assert ProjectTypes[1..][1] == TypeLabel(t);
      case Failed => assert ProjectTypes[1..][2] == TypeLabel(t);
      case Ongoing => assert ProjectTypes[1..][3] == TypeLabel(t);
    }
  }

  predicate MatchesType(selectedType: string, p: Project) {
    selectedType == "All" || TypeLabel(p.kind) == selectedType
  }

  /** Tag filters are OR-ed: one shared tag is enough. */
  predicate MatchesTags(selectedTags: seq<string>, p: Project) {
    |selectedTags| == 0 || exists t :: t in selectedTags && t in p.tags
  }

  /**
   * Case-insensitive search over title, description and tags; the long
   * description is not searched.
   */
  predicate MatchesSearch(query: string, p: Project) {
    query == "" ||
    ContainsIgnoreCase(p.title, query) ||
    ContainsIgnoreCase(p.description, query) ||
    exists tag :: tag in p.tags && ContainsIgnoreCase(tag, query)
  }

  predicate ProjectMatches(selectedType: string, selectedTags: seq<string>, query: string, p: Project) {
    MatchesType(selectedType, p) && MatchesTags(selectedTags, p) && MatchesSearch(query, p)
  }

  /** The filter predicate for one filter state, as a function value. */
  function Matcher(selectedType: string, selectedTags: seq<string>, query: string): Project -> bool {
    (p: Project) => ProjectMatches(selectedType, selectedTags, query, p)
  }

  /**
   * `filteredProjects`: the projects that pass all three filters, in their
   * original order.
   */
  function FilteredProjects(selectedType: string, selectedTags: seq<string>, query: string, projects: seq<Project>): (r: seq<Project>)
    ensures IsSubsequence(r, projects)
    ensures forall p :: p in r <==> p in projects && ProjectMatches(selectedType, selectedTags, query, p)
    ensures forall p :: multiset(r)[p] == if ProjectMatches(selectedType, selectedTags, query, p) then multiset(projects)[p] else 0
  {
    FilterIsSubsequence(projects, Matcher(selectedType, selectedTags, query));
    FilterCountsAll(projects, Matcher(selectedType, selectedTags, query));
    Filter(projects, Matcher(selectedType, selectedTags, query))
  }

  /** With every filter at its default, the whole list is shown. */
  lemma NoFilterShowsAll(projects: seq<Project>)
    ensures FilteredProjects("All", [], "", projects) == projects
  {
    FilterKeepsAll(projects, Matcher("All", [], ""));
  }

  /** A type that no project has (other than "All") empties the list. */
  lemma UnknownTypeShowsNone(selectedType: string, selectedTags: seq<string>, query: string, projects: seq<Project>)
    requires selectedType !in ProjectTypes
    ensures FilteredProjects(selectedType, selectedTags, query, projects) == []
  {
    TypeOptionsCoverTypes();
    FilterDropsAll(projects, Matcher(selectedType, selectedTags, query));
  }

  /** The search ignores the letter case of the query. */
  lemma SearchIgnoresQueryCase(q1: string, q2: string, p: Project)
    requires Lower(q1) == Lower(q2)
    ensures MatchesSearch(q1, p) <==> MatchesSearch(q2, p)
  {
    assert q1 == "" <==> q2 == "" by {
      assert |Lower(q1)| == |q1| && |Lower(q2)| == |q2|;
    }
  }

  /** Editing only the long description never changes whether a project matches. */
  lemma LongDescriptionNotSearched(selectedType: string, selectedTags: seq<string>, query: string, p: Project, text: string)
    ensures ProjectMatches(selectedType, selectedTags, query, p) ==
            ProjectMatches(selectedType, selectedTags, query, p.(longDescription := text))
  {
    var p' := p.(longDescription := text);
    assert p'.title == p.title && p'.description == p.description && p'.tags == p.tags && p'.kind == p.kind;
  }

  /**
   * Adding a tag to the selection can only widen the tag filter (the tags
   * are OR-ed), while the other two filters stay fixed.
   */
  lemma MoreTagsShowMore(selectedType: string, selectedTags: seq<string>, tag: string, query: string, projects: seq<Project>)
    requires |selectedTags| > 0
    ensures forall p :: p in FilteredProjects(selectedType, selectedTags, query, projects) ==>
                        p in FilteredProjects(selectedType, selectedTags + [tag], query, projects)
  {
    var wider := selectedTags + [tag];
    forall p | p in FilteredProjects(selectedType, selectedTags, query, projects)
      ensures p in FilteredProjects(selectedType, wider, query, projects)
    {
      var t :| t in selectedTags && t in p.tags;
      assert t in wider;
    }
  }

  /** The predicate "is not `tag`", used to drop a tag from the selection. */
  function Other(tag: string): string -> bool {
    (t: string) => t != tag
  }

  /**
   * `toggleTag`: a selected tag is removed (every copy of it), an unselected
   * one is appended at the end.
   */
  function Toggle(prev: seq<string>, tag: string): (r: seq<string>)
    ensures tag in r <==> tag !in prev
    ensures forall t :: t != tag ==> (t in r <==> t in prev)
    ensures Filter(r, Other(tag)) == Filter(prev, Other(tag))
  {
    if tag in prev then
      FilterFilter(prev, Other(tag), Other(tag), Other(tag));
      Filter(prev, Other(tag))
    else
      FilterAppend(prev, [tag], Other(tag));
      prev + [tag]
  }

  /** A selection without duplicates keeps none after a toggle. */
  lemma ToggleKeepsNoDup(prev: seq<string>, tag: string)
    requires NoDup(prev)
    ensures NoDup(Toggle(prev, tag))
  {
    if tag in prev {
      FilterNoDup(prev, Other(tag));
    } else {
      var r := prev + [tag];
      forall i, j | 0 <= i < j < |r| ensures r[i] != r[j] {
        if j < |prev| {
          assert r[i] == prev[i] && r[j] == prev[j];
        } else {
          assert r[i] == prev[i] && prev[i] in prev;
        }
      }
    }
  }

  /** Toggling a tag on and then off again restores the previous selection. */
  lemma ToggleOnOff(prev: seq<string>, tag: string)
    requires tag !in prev
    ensures Toggle(Toggle(prev, tag), tag) == prev
  {
    FilterAppend(prev, [tag], Other(tag));
    FilterKeepsAll(prev, Other(tag));
  }

  /**
   * Toggling a selected tag off and on again moves it to the end of the
   * selection: the result is the same set, in a different order.
   */
  lemma ToggleOffOn(prev: seq<string>, tag: string)
    requires tag in prev
    ensures Toggle(Toggle(prev, tag), tag) == Filter(prev, Other(tag)) + [tag]
  {
  }

  /** The predicate "has type `t`", used for the stats cards. */
  function OfKind(t: ProjectType): Project -> bool {
    (p: Project) => p.kind == t
  }

  /** The number shown on the stats card of one project type. */
  function TypeCount(projects: seq<Project>, t: ProjectType): nat {
    |Filter(projects, OfKind(t))|
  }

  /** The four stats cards together count every project exactly once. */
  lemma {:induction false} TypeCountsSum(projects: seq<Project>)
    ensures TypeCount(projects, Success) + TypeCount(projects, FreeTool) +
            TypeCount(projects, ProjectType.Failed) + TypeCount(projects, Ongoing) == |projects|
    decreases |projects|
  {
    if projects != [] {
      TypeCountsSum(projects[1..]);
    }
  }

  /** The clear button is shown iff some filter differs from its default. */
  predicate ShowClearFilters(selectedType: string, selectedTags: seq<string>, query: string) {
    selectedType != "All" || |selectedTags| > 0 || query != ""
  }

  /**
   * Whenever the clear button is hidden, every project is listed; so the
   * "No projects found" state always comes with a clear button.
   */
  lemma HiddenClearShowsAll(selectedType: string, selectedTags: seq<string>, query: string, projects: seq<Project>)
    requires !ShowClearFilters(selectedType, selectedTags, query)
    ensures FilteredProjects(selectedType, selectedTags, query, projects) == projects
  {
    NoFilterShowsAll(projects);
  }

  /** "Showing X of Y projects". */
  function ResultsText(shown: seq<Project>, projects: seq<Project>): (r: string)
    ensures |r| >= 23 && r[..8] == "Showing " && r[|r| - 9..] == " projects"
    ensures exists x, y | PrintsCount(x, |shown|) && PrintsCount(y, |projects|) :: r == "Showing " + x + " of " + y + " projects"
  {
    NatToStringValue(|shown|);
    NatToStringValue(|projects|);
    assert PrintsCount(NatToString(|shown|), |shown|) && PrintsCount(NatToString(|projects|), |projects|);
    "Showing " + NatToString(|shown|) + " of " + NatToString(|projects|) + " projects"
  }

  /** The results line can be read back: it determines both counts. */
  lemma ResultsTextReadsBack(a: seq<Project>, b: seq<Project>, c: seq<Project>, d: seq<Project>)
    requires ResultsText(a, b) == ResultsText(c, d)
    ensures |a| == |c| && |b| == |d|
  {
    CountsReadBack(NatToString(|a|), NatToString(|b|), NatToString(|c|), NatToString(|d|));
    NatToStringValue(|a|);
    NatToStringValue(|c|);
    NatToStringValue(|b|);
    NatToStringValue(|d|);
  }

  lemma CountsReadBack(x: string, y: string, x': string, y': string)
    requires forall k :: 0 <= k < |x| ==> IsDigit(x[k])
    requires forall k :: 0 <= k < |x'| ==> IsDigit(x'[k])
    requires "Showing " + x + " of " + y + " projects" == "Showing " + x' + " of " + y' + " projects"
    ensures x == x' && y == y'
  {
    var t, t' := " of " + y + " projects", " of " + y' + " projects";
    Regroup("Showing ", x, y);
    Regroup("Showing ", x', y');
    StripPrefix("Showing ", x + t, x' + t');
    DigitRunUnique(x, t, x', t');
    OfSliceCount(y);
    OfSliceCount(y');
  }

  lemma Regroup(pre: string, x: string, y: string)
    ensures pre + x + " of " + y + " projects" == pre + (x + (" of " + y + " projects"))
  {
  }

  lemma StripPrefix(pre: string, u: string, v: string)
    requires pre + u == pre + v
    ensures u == v
  {
    assert u == (pre + u)[|pre|..];
    assert v == (pre + v)[|pre|..];
  }

  lemma OfSliceCount(y: string)
    ensures var t := " of " + y + " projects"; |t| >= 13 && t[4..|t| - 9] == y
  {
  }

  /** The shown count never exceeds the total count. */
  lemma ShownAtMostTotal(selectedType: string, selectedTags: seq<string>, query: string, projects: seq<Project>)
    ensures |FilteredProjects(selectedType, selectedTags, query, projects)| <= |projects|
  {
  }

  /**
   * The tag filter is OR: with "SEO" and "Stripe" selected, QRDive (tagged
   * Stripe) is listed while Barbeon, which has neither tag, is not.
   */
  lemma TagFilterIsOr()
    ensures MatchesTags(["SEO", "Stripe"], Projects[6])
    ensures !MatchesTags(["SEO", "Stripe"], Projects[9])
  {
    assert "Stripe" in Projects[6].tags;
  }

  /**
   * The search ignores the case of the text: the query "saas" finds the
   * QRDive project, titled "QRDive - QR Tracking SaaS".
   */
  lemma SearchIgnoresTitleCase(p: Project)
    requires p.title == "QRDive - QR Tracking SaaS"
    ensures MatchesSearch("saas", p)
  {
    var l := Lower(p.title);
    assert l[21] == 's' && l[22] == 'a' && l[23] == 'a' && l[24] == 's';
    assert Lower("saas") == "saas";
    assert OccursAt(l, "saas", 21);
    ContainsAt(l, "saas", 21);
  }

  /** On first render and after "Clear all filters", all thirteen projects are listed. */
  lemma ClearedPageListsAllProjects()
    ensures FilteredProjects("All", [], "", Projects) == Projects
    ensures |FilteredProjects("All", [], "", Projects)| == 13
  {
    NoFilterShowsAll(Projects);
  }

  /** The state behind the portfolio page's filter controls. */
  class PortfolioPage {
    var selectedType: string
    var selectedTags: seq<string>
    var searchQuery: string

    /** A selection holds each tag at most once. */
    ghost predicate Valid()
      reads this
    {
      NoDup(selectedTags)
    }

    constructor()
      ensures Valid()
      ensures selectedType == "All" && selectedTags == [] && searchQuery == ""
    {
      selectedType := "All";
      selectedTags := [];
      searchQuery := "";
      new;

    }

    /** The listed projects for the current filters. */
    function Filtered(): (r: seq<Project>)
      reads this
      ensures IsSubsequence(r, Projects)
      ensures forall p :: p in r <==> p in Projects && ProjectMatches(selectedType, selectedTags, searchQuery, p)
    {
      FilteredProjects(selectedType, selectedTags, searchQuery, Projects)
    }

    predicate ShowClear()
      reads this
    {
      ShowClearFilters(selectedType, selectedTags, searchQuery)
    }

    /** A type chip was clicked. */
    method SelectType(t: string)
      modifies this
      requires Valid()
      ensures Valid()
      ensures selectedType == t
      ensures selectedTags == old(selectedTags) && searchQuery == old(searchQuery)
    {
      selectedType := t;
    }

    /** The search box changed. */
    method SetSearchQuery(q: string)
      modifies this
      requires Valid()
      ensures Valid()
      ensures searchQuery == q
      ensures selectedType == old(selectedType) && selectedTags == old(selectedTags)
    {
      searchQuery := q;
    }

    /** A tech chip was clicked. */
    method ToggleTag(tag: string)
      modifies this
      requires Valid()
      ensures Valid()
      ensures selectedTags == Toggle(old(selectedTags), tag)
      ensures tag in selectedTags <==> tag !in old(selectedTags)
      ensures selectedType == old(selectedType) && searchQuery == old(searchQuery)
    {
      ToggleKeepsNoDup(selectedTags, tag);
      selectedTags := Toggle(selectedTags, tag);
    }

    /**
     * "Clear all filters": every filter back to its default, which hides
     * the button and lists every project.
     */
    method ClearFilters()
      modifies this
      ensures Valid()
      ensures selectedType == "All" && selectedTags == [] && searchQuery == ""
      ensures !ShowClear()
    {
      selectedType := "All";
      selectedTags := [];
      searchQuery := "";
    }
  }
}

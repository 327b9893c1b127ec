/**
 * The home page: the featured-projects strip and the stats cards drawn from
 * the personal info record.
 */
module Home {
  import opened Seqs
  import opened Text
  import opened Content

  /** A project is showcased on the home page iff it is a Success or a Free Tool. */
  function Showcased(): Project -> bool {
    (p: Project) => p.kind == Success || p.kind == FreeTool
  }

  /** `featuredProjects`: the first three showcased projects, in list order. */
  function FeaturedProjects(projects: seq<Project>): (r: seq<Project>)
    ensures |r| <= 3
    ensures IsSubsequence(r, projects)
    ensures forall p :: p in r ==> p.kind == Success || p.kind == FreeTool
    ensures r == Take(Filter(projects, Showcased()), 3)
  {
    var showcased := Filter(projects, Showcased());
    var r := Take(showcased, 3);
    FilterIsSubsequence(projects, Showcased());
    TakeIsSubsequence(showcased, 3);
    SubsequenceTransitive(r, showcased, projects);
    assert r + showcased[|r|..] == showcased;
    forall p | p in r ensures p in showcased {
      assert p in r + showcased[|r|..];
    }
    r
  }

  /**
   * On the shipped data the strip shows the two scrapers and Invoicor: no
   * project is a Success, and the only free tools are the first two and the
   * last two projects.
   */
  lemma FeaturedProjectsInData()
    ensures FeaturedProjects(Projects) == [Projects[0], Projects[1], Projects[11]]
  {
    ShowcasedInData();
    FeaturedFromKinds(Projects);
  }

  /**
   * Only the first two and the last two shipped projects are showcased; the
   * first three of them are the two scrapers and Invoicor.
   */
  lemma ShowcasedInData()
    ensures |Projects| == 13
    ensures Projects[0].id == "Google-Maps-Company-scraper"
    ensures Projects[1].id == "Website-Contact-Email-scraper"
    ensures Projects[11].id == "Invoicor"
    ensures forall i | 0 <= i < |Projects| :: Showcased()(Projects[i]) <==> i < 2 || 11 <= i
  {
    ProjectKindsInData();
  }

  /**
   * Thirteen projects whose first two and last two are the only showcased
   * ones: the strip shows the first, the second and the twelfth.
   */
  lemma FeaturedFromKinds(ps: seq<Project>)
    requires |ps| == 13
    requires forall i | 0 <= i < |ps| :: Showcased()(ps[i]) <==> i < 2 || 11 <= i
    ensures FeaturedProjects(ps) == [ps[0], ps[1], ps[11]]
  {
    ShowcasedSlices(ps);
    var f := ps[..2] + ps[11..];
    assert f[0] == ps[0] && f[1] == ps[1] && f[2] == ps[11];
    TakeThree(f);
  }

  lemma TakeThree(f: seq<Project>)
    requires |f| >= 3
    ensures Take(f, 3) == [f[0], f[1], f[2]]
  {
    assert Take(f, 3) == f[..3];
  }

  /** The showcased projects are the first two followed by the last two. */
  lemma ShowcasedSlices(ps: seq<Project>)
    requires |ps| == 13
    requires forall i | 0 <= i < |ps| :: Showcased()(ps[i]) <==> i < 2 || 11 <= i
    ensures Filter(ps, Showcased()) == ps[..2] + ps[11..]
  {
    SliceFilters(ps);
    ThreeSlices(ps, 2, 11);
    FilterThreeParts(ps[..2], ps[2..11], ps[11..], Showcased());
  }

  lemma SliceFilters(ps: seq<Project>)
    requires |ps| == 13
    requires forall i | 0 <= i < |ps| :: Showcased()(ps[i]) <==> i < 2 || 11 <= i
    ensures Filter(ps[..2], Showcased()) == ps[..2]
    ensures Filter(ps[2..11], Showcased()) == []
    ensures Filter(ps[11..], Showcased()) == ps[11..]
  {
    KeepSlice(ps, 0, 2);
    DropSlice(ps, 2, 11);
    KeepSlice(ps, 11, 13);
    assert ps[0..2] == ps[..2] && ps[11..13] == ps[11..];
  }

  lemma KeepSlice(ps: seq<Project>, lo: nat, hi: nat)
    requires lo <= hi <= |ps|
    requires forall i | lo <= i < hi :: Showcased()(ps[i])
    ensures Filter(ps[lo..hi], Showcased()) == ps[lo..hi]
  {
    forall x | x in ps[lo..hi] ensures Showcased()(x) {
      var i :| 0 <= i < hi - lo && ps[lo..hi][i] == x;
      assert ps[lo..hi][i] == ps[lo + i];
    }
    FilterKeepsAll(ps[lo..hi], Showcased());
  }

  lemma DropSlice(ps: seq<Project>, lo: nat, hi: nat)
    requires lo <= hi <= |ps|
    requires forall i | lo <= i < hi :: !Showcased()(ps[i])
    ensures Filter(ps[lo..hi], Showcased()) == []
  {
    forall x | x in ps[lo..hi] ensures !Showcased()(x) {
      var i :| 0 <= i < hi - lo && ps[lo..hi][i] == x;
      assert ps[lo..hi][i] == ps[lo + i];
    }
    FilterDropsAll(ps[lo..hi], Showcased());
  }

  /** The "Products Built" stat card: the count, in decimal. */
  function ProductsBuiltStat(): (r: string)
    ensures forall k :: 0 <= k < |r| ==> IsDigit(r[k])
    ensures DigitsValue(r) == Info.productsBuilt
    ensures |r| > 1 ==> r[0] != '0'
  {
    NatToStringValue(Info.productsBuilt);
    IntToString(Info.productsBuilt)
  }

  /** The "Years Building" stat card: the count, in decimal. */
  function YearsBuildingStat(): (r: string)
    ensures forall k :: 0 <= k < |r| ==> IsDigit(r[k])
    ensures DigitsValue(r) == Info.yearsBuilding
    ensures |r| > 1 ==> r[0] != '0'
  {
    NatToStringValue(Info.yearsBuilding);
    IntToString(Info.yearsBuilding)
  }

  /** On the shipped data the cards read "13" and "2"; 13 is also the number of projects. */
  lemma StatsInData()
    ensures ProductsBuiltStat() == "13"
    ensures YearsBuildingStat() == "2"
    ensures Info.productsBuilt == |Projects|
  {
    assert NatToString(13) == NatToString(1) + [DigitChar(3)];
  }
}

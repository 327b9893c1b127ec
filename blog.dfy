/**
 * The blog page: posts narrowed by a case-insensitive search over title and
 * description and by at most one selected tag; the first featured post is
 * shown in a card of its own, the rest in a grid.
 */
module Blog {
  import opened Optional
  import opened Seqs
  import opened Text
  import opened Content

  /** Every tag of every post, in post order (`flatMap`). */
  function FlatTags(posts: seq<BlogPost>): (r: seq<string>)
    ensures forall t :: t in r <==> exists p :: p in posts && t in p.tags
  {
    if posts == [] then []
    else
      var rest := FlatTags(posts[1..]);
      assert forall p :: p in posts[1..] ==> p in posts;
      assert forall p :: p in posts ==> p == posts[0] || p in posts[1..];
      posts[0].tags + rest
  }

  /**
   * `allTags`: the distinct tags of all posts, each listed once, in the
   * order in which it first occurs.
   */
  function AllTags(posts: seq<BlogPost>): (r: seq<string>)
    ensures NoDup(r)
    ensures forall t :: t in r <==> exists p :: p in posts && t in p.tags
    ensures forall t :: t in r ==> t in FlatTags(posts)
    ensures forall i, j :: 0 <= i < j < |r| ==> FirstIndex(FlatTags(posts), r[i]) < FirstIndex(FlatTags(posts), r[j])
  {
    Distinct(FlatTags(posts))
  }

  /** The tag filter is off when no tag is selected (null or the empty string). */
  predicate TagFilterOff(selectedTag: Option<string>) {
    selectedTag.None? || selectedTag.value == ""
  }

  /** The search covers title and description only, not the body or the tags. */
  predicate MatchesSearch(query: string, post: BlogPost) {
    query == "" || ContainsIgnoreCase(post.title, query) || ContainsIgnoreCase(post.description, query)
  }

  /** A single selected tag must be among the post's tags, exactly as spelled. */
  predicate MatchesTag(selectedTag: Option<string>, post: BlogPost) {
    TagFilterOff(selectedTag) || selectedTag.value in post.tags
  }

  predicate PostMatches(query: string, selectedTag: Option<string>, post: BlogPost) {
    MatchesSearch(query, post) && MatchesTag(selectedTag, post)
  }

  function PostMatcher(query: string, selectedTag: Option<string>): BlogPost -> bool {
    (p: BlogPost) => PostMatches(query, selectedTag, p)
  }

  /** `filteredPosts`: the posts passing both filters, in their original order. */
  function FilteredPosts(query: string, selectedTag: Option<string>, posts: seq<BlogPost>): (r: seq<BlogPost>)
    ensures IsSubsequence(r, posts)
    ensures forall p :: p in r <==> p in posts && PostMatches(query, selectedTag, p)
    ensures forall p :: multiset(r)[p] == if PostMatches(query, selectedTag, p) then multiset(posts)[p] else 0
  {
    FilterIsSubsequence(posts, PostMatcher(query, selectedTag));
    FilterCountsAll(posts, PostMatcher(query, selectedTag));
    Filter(posts, PostMatcher(query, selectedTag))
  }

  /** With no search and no tag every post passes. */
  lemma NoFilterKeepsAllPosts(query: string, selectedTag: Option<string>, posts: seq<BlogPost>)
    requires query == "" && TagFilterOff(selectedTag)
    ensures FilteredPosts(query, selectedTag, posts) == posts
  {
    FilterKeepsAll(posts, PostMatcher(query, selectedTag));
  }

  /** The post body is never searched. */
  lemma ContentNotSearched(query: string, post: BlogPost, text: string)
    ensures MatchesSearch(query, post) == MatchesSearch(query, post.(content := text))
  {
    var post' := post.(content := text);
    assert post'.title == post.title && post'.description == post.description;
  }

  /** The position of the first featured post, or `|posts|` if there is none. */
  function FirstFeaturedIndex(posts: seq<BlogPost>): (i: nat)
    ensures i <= |posts|
    ensures forall k :: 0 <= k < i ==> !IsFeatured(posts[k])
    ensures i < |posts| ==> IsFeatured(posts[i])
  {
    if posts == [] then 0
    else if IsFeatured(posts[0]) then 0
    else 1 + FirstFeaturedIndex(posts[1..])
  }

  /** `featuredPost`: the first post flagged as featured, if any. */
  function FeaturedPost(posts: seq<BlogPost>): (r: Option<BlogPost>)
    ensures r.None? <==> forall k :: 0 <= k < |posts| ==> !IsFeatured(posts[k])
    ensures r.Some? ==> r.value in posts && IsFeatured(r.value)
    ensures r.Some? ==> exists i :: 0 <= i < |posts| && posts[i] == r.value &&
                                    forall k :: 0 <= k < i ==> !IsFeatured(posts[k])
  {
    var i := FirstFeaturedIndex(posts);
    if i < |posts| then Some(posts[i]) else None
  }

  /** On the shipped data the featured post is "seo-basics", the first post. */
  lemma FeaturedPostInData()
    ensures FeaturedPost(BlogPosts) == Some(BlogPosts[0])
    ensures BlogPosts[0].id == "seo-basics"
  {
    assert IsFeatured(BlogPosts[0]);
  }

  /** `regularPosts`: the filtered posts without any featured post. */
  function RegularPosts(filtered: seq<BlogPost>): (r: seq<BlogPost>)
    ensures IsSubsequence(r, filtered)
    ensures forall p :: p in r <==> p in filtered && !IsFeatured(p)
    ensures forall p :: multiset(r)[p] == if IsFeatured(p) then 0 else multiset(filtered)[p]
  {
    FilterIsSubsequence(filtered, NotFeatured());
    FilterCountsAll(filtered, NotFeatured());
    Filter(filtered, NotFeatured())
  }

  function NotFeatured(): BlogPost -> bool {
    (p: BlogPost) => !IsFeatured(p)
  }

  /** The featured card appears only with a featured post, no search and no tag. */
  predicate ShowFeaturedCard(featured: Option<BlogPost>, query: string, selectedTag: Option<string>) {
    featured.Some? && query == "" && TagFilterOff(selectedTag)
  }

  /** The heading of the grid. */
  function Heading(selectedTag: Option<string>): (r: string)
    ensures TagFilterOff(selectedTag) ==> r == "All Articles"
    ensures !TagFilterOff(selectedTag) ==> r == "Articles about " + selectedTag.value
  {
    if TagFilterOff(selectedTag) then "All Articles" else "Articles about " + selectedTag.value
  }

  /** The heading names the selected tag, and differs from the unfiltered one. */
  lemma HeadingNamesTag(selectedTag: Option<string>)
    requires !TagFilterOff(selectedTag)
    ensures Heading(selectedTag)[15..] == selectedTag.value
    ensures Heading(selectedTag) != Heading(None)
  {
    var h := Heading(selectedTag);
    assert h[..3] == "Art";
    assert "All Articles"[..3] == "All";
  }

  /**
   * The featured card's initials: the first two space-separated words,
   * first character of each (an empty word adds nothing).
   */
  function CardInitials(title: string): (r: string)
    ensures |r| <= 2
    ensures r <= WordStarts(title, true)
    ensures var words := Split(title, ' ');
      |r| == (if words[0] != "" then 1 else 0) + (if |words| > 1 && words[1] != "" then 1 else 0)
  {
    var words := Split(title, ' ');
    var two := Take(words, 2);
    assert two + words[|two|..] == words;
    ConcatFirstCharsAppend(two, words[|two|..]);
    FirstCharsOfSplit(title);
    assert ConcatFirstChars(two) == FirstChar(two[0]) + ConcatFirstChars(two[1..]);
    assert |words| > 1 ==> two[1..] == [words[1]] && ConcatFirstChars([words[1]]) == FirstChar(words[1]);
    assert |words| <= 1 ==> two[1..] == [];
    ConcatFirstChars(two)
  }

  /**
   * The card and the banner initials agree except where the title has an
   * empty word among the first two: "A  B" gives "A" on the card but "AB"
   * on a project banner.
   */
  lemma CardInitialsDifferFromBanner()
    ensures CardInitials("A  B") == "A"
    ensures WordStarts("A  B", true)[..2] == "AB"
  {
    assert Split("", ' ') == [""];
    assert "B"[1..] == "";
    assert Split("B", ' ') == [['B'] + Split("", ' ')[0]] + Split("", ' ')[1..];
    assert ['B'] + "" == "B";
    assert Split("B", ' ') == ["B"];
    assert " B"[1..] == "B";
    assert Split(" B", ' ') == ["", "B"];
    assert "  B"[1..] == " B";
    assert Split("  B", ' ') == ["", "", "B"];
    assert "A  B"[1..] == "  B";
    assert Split("A  B", ' ') == [['A'] + Split("  B", ' ')[0]] + Split("  B", ' ')[1..];
    assert ['A'] + "" == "A";
    assert Split("A  B", ' ') == ["A", "", "B"];
    assert Take(["A", "", "B"], 2) == ["A", ""];
  }

  /**
   * As written, a featured post is never in the grid, and the featured card
   * is hidden whenever a search or a tag is active. So a featured post that
   * matches an active filter is displayed nowhere.
   */
  lemma FeaturedMatchHidden(query: string, selectedTag: Option<string>, posts: seq<BlogPost>, p: BlogPost)
    requires p in FilteredPosts(query, selectedTag, posts) && IsFeatured(p)
    requires query != "" || !TagFilterOff(selectedTag)
    ensures p !in RegularPosts(FilteredPosts(query, selectedTag, posts))
    ensures !ShowFeaturedCard(FeaturedPost(posts), query, selectedTag)
  {
  }

  /**
   * On the shipped data the only post tagged "Pricing" is the featured
   * "saas-pricing"; selecting the "Pricing" chip lists nothing and shows no
   * card, so the page reads "No articles found".
   */
  lemma PricingChipShowsNothing()
    ensures "Pricing" in BlogPosts[9].tags && BlogPosts[9].id == "saas-pricing"
    ensures RegularPosts(FilteredPosts("", Some("Pricing"), BlogPosts)) == []
    ensures !ShowFeaturedCard(FeaturedPost(BlogPosts), "", Some("Pricing"))
  {
    forall i | 0 <= i < |BlogPosts| && "Pricing" in BlogPosts[i].tags ensures IsFeatured(BlogPosts[i]) {
      if i == 0 {} else if i == 1 {} else if i == 2 {} else if i == 3 {}
      else if i == 4 {} else if i == 5 {} else if i == 6 {} else if i == 7 {}
      else if i == 8 {} else if i == 9 {} else {}
    }
    OnlyFeaturedTaggedListsNothing("Pricing", BlogPosts);
  }

  /** A tag carried only by featured posts lists nothing in the grid. */
  lemma OnlyFeaturedTaggedListsNothing(tag: string, posts: seq<BlogPost>)
    requires tag != ""
    requires forall i :: 0 <= i < |posts| && tag in posts[i].tags ==> IsFeatured(posts[i])
    ensures RegularPosts(FilteredPosts("", Some(tag), posts)) == []
  {
    var filtered := FilteredPosts("", Some(tag), posts);
    forall p | p in filtered ensures IsFeatured(p) {
      var i :| 0 <= i < |posts| && posts[i] == p;
    }
    FilterDropsAll(filtered, NotFeatured());
  }

  /**
   * The evidently intended grid: every filtered post except the one already
   * shown in the featured card.
   */
  function ListedPosts(filtered: seq<BlogPost>, card: Option<BlogPost>): (r: seq<BlogPost>)
    ensures IsSubsequence(r, filtered)
    ensures forall p :: p in r <==> p in filtered && card != Some(p)
  {
    match card
    case None =>
      SubsequenceReflexive(filtered);
      filtered
    case Some(c) =>
      FilterIsSubsequence(filtered, NotThis(c));
      Filter(filtered, NotThis(c))
  }

  function NotThis(c: BlogPost): BlogPost -> bool {
    (p: BlogPost) => p != c
  }

  /** The post in the featured card, if the card is shown. */
  function CardPost(query: string, selectedTag: Option<string>, posts: seq<BlogPost>): Option<BlogPost> {
    if ShowFeaturedCard(FeaturedPost(posts), query, selectedTag) then FeaturedPost(posts) else None
  }

  /**
   * With the intended grid, the page shows every post that passes the
   * filters exactly once (in the card or in the grid) and nothing else.
   */
  lemma EveryMatchShownOnce(query: string, selectedTag: Option<string>, posts: seq<BlogPost>)
    ensures var filtered, card := FilteredPosts(query, selectedTag, posts), CardPost(query, selectedTag, posts);
      (card.Some? ==> card.value in filtered) &&
      forall p :: p in filtered ==> (card == Some(p) <==> p !in ListedPosts(filtered, card))
  {
    var card := CardPost(query, selectedTag, posts);
    if card.Some? {
      NoFilterKeepsAllPosts(query, selectedTag, posts);
    }
  }

  /** With the intended grid, choosing the "Pricing" chip lists "saas-pricing". */
  lemma PricingChipListsPost()
    ensures BlogPosts[9] in ListedPosts(FilteredPosts("", Some("Pricing"), BlogPosts), CardPost("", Some("Pricing"), BlogPosts))
  {
    assert "Pricing" in BlogPosts[9].tags;
    TaggedPostListed("Pricing", BlogPosts, 9);
  }

  /** With the intended grid, choosing a tag lists every post that carries it. */
  lemma TaggedPostListed(tag: string, posts: seq<BlogPost>, i: nat)
    requires i < |posts| && tag != "" && tag in posts[i].tags
    ensures posts[i] in ListedPosts(FilteredPosts("", Some(tag), posts), CardPost("", Some(tag), posts))
  {
    assert CardPost("", Some(tag), posts) == None;
    assert PostMatches("", Some(tag), posts[i]);
  }

  /** The state behind the blog page's search box and tag chips. */
  class BlogPage {
    var searchQuery: string
    var selectedTag: Option<string>

    constructor()
      ensures searchQuery == "" && selectedTag == None
      ensures Heading(selectedTag) == "All Articles"
    {
      searchQuery := "";
      selectedTag := None;
    }

    /** The grid as written: the matching posts, without any featured post. */
    function Grid(): (r: seq<BlogPost>)
      reads this
      ensures forall p :: p in r <==> p in BlogPosts && PostMatches(searchQuery, selectedTag, p) && !IsFeatured(p)
    {
      RegularPosts(FilteredPosts(searchQuery, selectedTag, BlogPosts))
    }

    /**
     * The intended grid: the matching posts, without the one shown in the
     * featured card.
     */
    function IntendedGrid(): (r: seq<BlogPost>)
      reads this
      ensures forall p :: p in r <==> p in BlogPosts && PostMatches(searchQuery, selectedTag, p) &&
                                      CardPost(searchQuery, selectedTag, BlogPosts) != Some(p)
    {
      ListedPosts(FilteredPosts(searchQuery, selectedTag, BlogPosts), CardPost(searchQuery, selectedTag, BlogPosts))
    }

    /** The search box changed. */
    method SetSearchQuery(q: string)
      modifies this
      ensures searchQuery == q && selectedTag == old(selectedTag)
    {
      searchQuery := q;
    }

    /** A tag chip (in the filter bar or on a post) was clicked. */
    method SelectTag(tag: string)
      modifies this
      ensures selectedTag == Some(tag) && searchQuery == old(searchQuery)
      ensures tag != "" ==> Heading(selectedTag) == "Articles about " + tag
    {
      selectedTag := Some(tag);
    }

    /** The "All" chip was clicked. */
    method SelectAll()
      modifies this
      ensures selectedTag == None && searchQuery == old(searchQuery)
      ensures Heading(selectedTag) == "All Articles"
    {
      selectedTag := None;
    }

    /** "Clear filters" in the empty state: no search and no tag. */
    method ClearFilters()
      modifies this
      ensures searchQuery == "" && selectedTag == None
      ensures Heading(selectedTag) == "All Articles"
    {
      searchQuery := "";
      selectedTag := None;
    }
  }
}

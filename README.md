# Axolab portfolio: the content-query layer in Dafny

Axolab is a single-page portfolio and blog site. All of its content sits in one
static data file: 13 projects, 11 blog posts, 15 milestones and a personal-info
record. The pages never fetch anything. They filter, search, slice and format
these constant lists according to a little UI state (a selected type, a set of
tags, a search box, the current path, the theme).

This project models that query layer:

- **Content** (`content.dfy`): the record types of `src/data/portfolio.ts` and its
  four constants, written out in full. It also holds the facts about the shipped
  data that the pages rely on: unique ids, the project types in list order,
  finished and ordered project durations, the featured posts, and the milestone
  dates.
- **Portfolio** (`portfolio.dfy`): the project filter. Type, OR-ed tags and a
  case-insensitive search are combined with AND. It also covers `toggleTag`,
  "Clear all filters", the per-type counts and the results line. The page's state
  is the class `PortfolioPage`.
- **Blog** (`blog.dfy`): the tag universe in first-seen order, the post filter,
  the featured post, the grid, the heading and the featured card's initials. The
  page's state is the class `BlogPage`.
- **CaseStudy** (`case_study.dfy`): lookup by route id, with a redirect for an
  unknown id. It also covers the status icon and colours, the SEO title,
  description and keywords, the lessons section, the two related projects and the
  tech-stack sections.
- **Home** (`home.dfy`): the featured strip (the first three Success or Free Tool
  projects) and the two integer stat cards.
- **ProjectCard** (`project_card.dfy`): the type configuration, the first four tags
  with a "+N more" badge, and the case-study link and its round trip through the
  `:id` route parameter.
- **Navbar** (`navbar.dfy`): which item is active for a path, the theme chosen on
  mount and by the toggle, the scrolled flag and the mobile menu. The state is the
  class `NavbarState`.
- Supporting modules:
  - **Display**: the duration line, the banner initials, the colour tone of a
    project type, and the truthiness tests that decide which badges render and
    what a zero metric leaves on the page.
  - **Text**: ASCII `toLowerCase`, `includes`, `startsWith`, `split`, `join` and
    integer `toString`.
  - **Seqs**: a stable `filter`, `slice(0, n)`, and deduplication in first-seen
    order.
  - **Optional**: the Option datatype.

JavaScript truthiness is written out wherever the pages depend on it:

- An empty string counts as absent. This applies to `selectedTag`, the saved
  theme, `duration.end`, `links.live` and `links.github`.
- A zero metric is falsy, so no users or revenue badge is drawn. But the
  expression `metric && (...)` then evaluates to the number 0, and React prints
  that 0 as text. See Findings.
- `featured` counts only when it is `true`.

Two behaviours of the blog page follow from its code alone:

- **The blog grid.** `regularPosts` (`src/pages/Blog.tsx:29`) drops every featured
  post from the filtered list, always. The featured card (`src/pages/Blog.tsx:106`)
  is shown only with no search and no tag. The tag chips are built from the tags
  of all posts (`src/pages/Blog.tsx:17`), so the "Pricing" chip exists. Its only
  post is featured, so selecting it leaves the grid empty and the page shows "No
  articles found" (`src/pages/Blog.tsx:169-190`). See Findings.
- **Tag order.** The blog's tag universe is listed in first-seen order. That is
  simply the order `Array.from(new Set(...))` produces from the flattened tags.

## Model

| member | source | states |
|---|---|---|
| Content.TypeLabel | src/data/portfolio.ts:13 | no project type is labelled "All", so "All" never selects a type |
| Content.TypeLabelInjective | src/data/portfolio.ts:13 | two types have the same label iff they are the same type |
| Content.MonthIndexParts | src/data/portfolio.ts:48 | the month count of a "YYYY-MM" date decodes back into its year and its month |
| Content.ProjectsTabulated | src/data/portfolio.ts:56-503 | the id list and the type list agree with the project records entry by entry |
| Content.ProjectKindsInData | src/data/portfolio.ts:56-503 | the shipped types in list order: 2 free tools, 3 failed, 6 ongoing, 2 free tools; no Success |
| Content.DurationsTabulated | src/data/portfolio.ts:56-503 | the duration list agrees with the project records entry by entry |
| Content.ProjectDurationsOrdered | src/data/portfolio.ts:9-12 | every shipped project has a non-empty end date, both dates are "YYYY-MM", and the start month is not after the end month |
| Content.ProjectIdsDistinct | src/data/portfolio.ts:56-503 | no two shipped projects share an id |
| Content.BlogPostsWellFormed | src/data/portfolio.ts:505-607 | blog post ids are pairwise distinct and every read time is positive |
| Content.FeaturedPostsInData | src/data/portfolio.ts:505-607 | exactly the first post ("seo-basics") and the tenth ("saas-pricing") are featured |
| Content.MilestonesFacts | src/data/portfolio.ts:609-715 | milestone ids are distinct; "QRDive-launch" (2024-10) is listed before the earlier "ads-test-webresolute" (2024-09) |
| Display.EndText | src/pages/CaseStudy.tsx:44-49 | the end of a duration reads "Ongoing" iff the end date is absent or empty, and is the formatted end date otherwise |
| Display.DurationTextParts | src/pages/CaseStudy.tsx:39-51 | the duration line splits at the arrow back into the formatted start date and the end text |
| Display.OngoingIsDistinguishable | src/pages/CaseStudy.tsx:44-50 | an ongoing and a finished duration with the same start never render the same line, unless the formatter prints "Ongoing" |
| Display.Initials | src/pages/CaseStudy.tsx:180 | the banner initials are the first two word-start characters of the title (at most 2 characters) |
| Display.InitialsAreTitleLetters | src/components/ProjectCard.tsx:74 | every banner initial is a non-space character of the title |
| Display.BadgeClassesDistinguishTones | src/pages/CaseStudy.tsx:64-75 | different tones never share a solid or a tinted badge class |
| Display.ToneOfInjective | src/components/ProjectCard.tsx:14-35 | each project type has its own colour tone |
| Display.LiveLink | src/pages/CaseStudy.tsx:140-143 | the live button renders iff `links.live` is present and non-empty, and then links to that URL |
| Display.ArrBadge | src/components/ProjectCard.tsx:87-94 | the ARR badge renders iff `arrMilestone` is present and non-empty, and then shows that text |
| Display.RenderedMetric | src/components/ProjectCard.tsx:117-131 | as written: nothing for an absent metric, a stray "0" for a zero metric, and a badge with the value otherwise |
| Display.StrayZeroInData | src/pages/CaseStudy.tsx:126-137 | as written, every shipped project prints a stray "0" for its revenue, and exactly the six with zero users also print one for their users |
| Display.StrayUsersInData | src/components/ProjectCard.tsx:119-124 | as written, the users slot prints a stray "0" exactly for "Dating-App-Website", "Web-Agency", "Data-Agency", "Saas-Boilerplate", "Barbeon" and "Internship-Scraper" |
| Display.IntendedMetric | src/components/ProjectCard.tsx:117-131 | corrected: never a stray "0"; a badge iff the metric is present and non-zero, showing its value |
| Display.IntendedMetricDiffersOnlyOnZero | src/components/ProjectCard.tsx:119-125 | the corrected and the as-written slot agree iff the metric is not zero; on zero one is blank and the other prints "0" |
| Display.NoRevenueBadgeInData | src/pages/CaseStudy.tsx:132-137 | corrected: no shipped project shows anything for its revenue (every revenue is 0) |
| Portfolio.TypeOptionsCoverTypes | src/pages/Portfolio.tsx:12 | the type selector is "All" plus exactly one distinct option per project type |
| Portfolio.FilteredProjects | src/pages/Portfolio.tsx:20-30 | the listed projects keep source order, are exactly those passing type AND tags AND search, and each passing project appears as often as in the input |
| Portfolio.NoFilterShowsAll | src/pages/Portfolio.tsx:20-30 | with the default filters the whole list is shown unchanged |
| Portfolio.UnknownTypeShowsNone | src/pages/Portfolio.tsx:21 | a selected type that is not one of the options lists nothing |
| Portfolio.SearchIgnoresQueryCase | src/pages/Portfolio.tsx:24-27 | two queries equal up to letter case match the same projects |
| Portfolio.SearchIgnoresTitleCase | src/pages/Portfolio.tsx:24 | the query "saas" finds the title "QRDive - QR Tracking SaaS" |
| Portfolio.LongDescriptionNotSearched | src/pages/Portfolio.tsx:24-27 | changing only the long description never changes whether a project matches |
| Portfolio.MoreTagsShowMore | src/pages/Portfolio.tsx:22-23 | adding a tag to a non-empty selection only widens the result |
| Portfolio.TagFilterIsOr | src/pages/Portfolio.tsx:22-23 | with "SEO" and "Stripe" selected QRDive matches and Barbeon does not |
| Portfolio.Toggle | src/pages/Portfolio.tsx:32-38 | toggling flips the tag's membership, leaves every other tag's membership alone, and keeps the other tags in order |
| Portfolio.ToggleKeepsNoDup | src/pages/Portfolio.tsx:32-38 | a selection without duplicates stays without duplicates |
| Portfolio.ToggleOnOff | src/pages/Portfolio.tsx:32-38 | toggling an unselected tag twice restores the selection exactly |
| Portfolio.ToggleOffOn | src/pages/Portfolio.tsx:32-38 | toggling a selected tag twice moves it to the end of the selection |
| Portfolio.TypeCountsSum | src/pages/Portfolio.tsx:83-110 | the four stats cards together count every project exactly once |
| Portfolio.HiddenClearShowsAll | src/pages/Portfolio.tsx:176 | whenever the clear button is hidden, every project is listed |
| Portfolio.ResultsText | src/pages/Portfolio.tsx:234 | the line is "Showing ", the decimal digits of the shown count, " of ", the decimal digits of the total, then " projects", with no leading zeros |
| Portfolio.ResultsTextReadsBack | src/pages/Portfolio.tsx:234 | the results line determines both counts: equal lines mean equal shown and total counts |
| Portfolio.ShownAtMostTotal | src/pages/Portfolio.tsx:234 | "Showing X of Y": X never exceeds Y |
| Portfolio.ClearedPageListsAllProjects | src/pages/Portfolio.tsx:40-44 | after clearing the filters, all 13 projects are listed in order |
| Portfolio.PortfolioPage.Filtered | src/pages/Portfolio.tsx:20-30 | the page lists, in order, exactly the shipped projects passing its current filters |
| Portfolio.PortfolioPage.constructor | src/pages/Portfolio.tsx:16-18 | the filters start at "All", no tags and an empty query |
| Portfolio.PortfolioPage.SelectType | src/pages/Portfolio.tsx:145-154 | a type chip sets the type and leaves tags and query alone |
| Portfolio.PortfolioPage.SetSearchQuery | src/pages/Portfolio.tsx:134 | the search box sets the query and leaves type and tags alone |
| Portfolio.PortfolioPage.ToggleTag | src/pages/Portfolio.tsx:32-38 | a tech chip toggles its tag, keeps the selection duplicate-free and leaves type and query alone |
| Portfolio.PortfolioPage.ClearFilters | src/pages/Portfolio.tsx:40-44 | all three filters go back to their defaults and the clear button disappears |
| Blog.FlatTags | src/pages/Blog.tsx:17 | the flattened tags contain exactly the tags of some post |
| Blog.AllTags | src/pages/Blog.tsx:17 | the tag chips hold every post tag once, in order of first occurrence, and nothing else |
| Blog.FilteredPosts | src/pages/Blog.tsx:19-26 | the filtered posts keep order, are exactly those matching the search (title or description) AND the tag, and keep each match's multiplicity |
| Blog.NoFilterKeepsAllPosts | src/pages/Blog.tsx:19-26 | with no search and no tag (null or empty) every post passes |
| Blog.ContentNotSearched | src/pages/Blog.tsx:20-22 | the post body never affects the search |
| Blog.FirstFeaturedIndex | src/pages/Blog.tsx:28 | the index found is the first featured post, or the length when none is featured |
| Blog.FeaturedPost | src/pages/Blog.tsx:28 | the featured post is absent iff no post is featured, and otherwise is the first featured post of the list |
| Blog.FeaturedPostInData | src/pages/Blog.tsx:28 | on the shipped data the featured post is "seo-basics" |
| Blog.RegularPosts | src/pages/Blog.tsx:29 | as written, the grid is the filtered posts minus every featured post, each non-featured post as often as it was filtered |
| Blog.Heading | src/pages/Blog.tsx:201 | "All Articles" without a tag, "Articles about <tag>" with one |
| Blog.HeadingNamesTag | src/pages/Blog.tsx:201 | a tag heading ends with the tag and differs from the unfiltered heading |
| Blog.CardInitials | src/pages/Blog.tsx:121 | the featured card's initials are the first characters of the first two split words, one character for each of those two words that is non-empty |
| Blog.CardInitialsDifferFromBanner | src/pages/Blog.tsx:121 | for "A  B" the card shows "A" while a banner would show "AB" |
| Blog.FeaturedMatchHidden | src/pages/Blog.tsx:106 | as written, a featured post matching an active search or tag appears neither in the grid nor in the card |
| Blog.PricingChipShowsNothing | src/pages/Blog.tsx:169-177 | as written, the "Pricing" chip lists nothing although "saas-pricing" carries that tag |
| Blog.OnlyFeaturedTaggedListsNothing | src/pages/Blog.tsx:29 | as written, a tag carried only by featured posts lists nothing |
| Blog.ListedPosts | src/pages/Blog.tsx:29 | corrected grid: every filtered post except the one in the shown featured card, in order |
| Blog.EveryMatchShownOnce | src/pages/Blog.tsx:28-29 | corrected grid: each filtered post is shown exactly once, in the card or in the grid |
| Blog.PricingChipListsPost | src/pages/Blog.tsx:89-99 | corrected grid: the "Pricing" chip lists "saas-pricing" |
| Blog.TaggedPostListed | src/pages/Blog.tsx:95 | corrected grid: selecting a tag lists every post carrying it |
| Blog.BlogPage.Grid | src/pages/Blog.tsx:29 | as written, the page's grid holds exactly the shipped posts matching its filters that are not featured |
| Blog.BlogPage.IntendedGrid | src/pages/Blog.tsx:28-29 | corrected, the page's grid holds exactly the shipped posts matching its filters except the one in the shown card |
| Blog.BlogPage.constructor | src/pages/Blog.tsx:14-15 | the page starts with no search and no tag, headed "All Articles" |
| Blog.BlogPage.SetSearchQuery | src/pages/Blog.tsx:74 | the search box sets the query and keeps the tag |
| Blog.BlogPage.SelectTag | src/pages/Blog.tsx:95 | a tag chip selects that tag, keeps the query and names the tag in the heading |
| Blog.BlogPage.SelectAll | src/pages/Blog.tsx:85 | the "All" chip clears the tag and keeps the query |
| Blog.BlogPage.ClearFilters | src/pages/Blog.tsx:183-186 | "Clear filters" empties the query and the tag |
| CaseStudy.FindProject | src/pages/CaseStudy.tsx:33 | lookup is absent iff no project has the id, and otherwise returns the first project with it |
| CaseStudy.FindUnique | src/pages/CaseStudy.tsx:33 | with pairwise distinct ids, looking up entry i's id finds entry i |
| CaseStudy.FindProjectInData | src/pages/CaseStudy.tsx:33 | every shipped project is found by its own id |
| CaseStudy.Route | src/pages/CaseStudy.tsx:32-37 | an unknown id redirects to "/portfolio"; a known id renders a shipped project with that id |
| CaseStudy.StatusIconCases | src/pages/CaseStudy.tsx:53-62 | a tick exactly for Success, a cross exactly for Failed, a trend for the other two |
| CaseStudy.StatusColorUsesTone | src/pages/CaseStudy.tsx:64-75 | the status badge uses the tinted class of the type's tone |
| CaseStudy.RelatedBadgeUsesTone | src/pages/CaseStudy.tsx:301-305 | the related-project badge uses the solid class of the type's tone |
| CaseStudy.RelatedProjects | src/pages/CaseStudy.tsx:294-296 | at most two related projects, in list order, none with the current id |
| CaseStudy.RelatedCount | src/pages/CaseStudy.tsx:294-296 | with at least two other projects, exactly two are shown |
| CaseStudy.OthersAtLeastTwo | src/pages/CaseStudy.tsx:295 | two entries with other ids survive the filter |
| CaseStudy.SeoTitle | src/pages/CaseStudy.tsx:80 | the SEO title is the project title followed by " Case Study - AxoLab" |
| CaseStudy.SeoTitleNamesProject | src/pages/CaseStudy.tsx:80 | two SEO titles are equal only when the project titles are |
| CaseStudy.SeoDescription | src/pages/CaseStudy.tsx:81 | the first 160 characters of the long description followed by "..." (at most 163 characters) |
| CaseStudy.EmptyLongDescriptionGivesEllipsis | src/pages/CaseStudy.tsx:81 | a shipped project with an empty long description gets the description "..." |
| CaseStudy.Keywords | src/pages/CaseStudy.tsx:82 | title, then the tags joined by ", ", then ", case study, SaaS", each readable back at its position |
| CaseStudy.LessonsHeading | src/pages/CaseStudy.tsx:243-255 | the section exists iff there are lessons; "Lessons from Failure" iff the project failed, else "Key Lessons Learned" |
| CaseStudy.NumberedLessons | src/pages/CaseStudy.tsx:259-273 | each lesson is shown with its 1-based position |
| CaseStudy.CodeLink | src/pages/CaseStudy.tsx:152-163 | "View Code" renders iff the live button renders and the GitHub link is non-empty |
| CaseStudy.TechSections | src/pages/CaseStudy.tsx:215-236 | four sections, frontend, backend, database and tools, each listing its own technologies |
| Home.FeaturedProjects | src/pages/Home.tsx:39 | at most three projects, in list order, all Success or Free Tool: the first three such |
| Home.ShowcasedInData | src/pages/Home.tsx:39 | among the shipped projects exactly the first two and the last two are showcased |
| Home.FeaturedFromKinds | src/pages/Home.tsx:39 | when only entries 0, 1, 11 and 12 are showcased, the strip is entries 0, 1 and 11 |
| Home.FeaturedProjectsInData | src/pages/Home.tsx:39 | on the shipped data the strip is the two scrapers and Invoicor |
| Home.ProductsBuiltStat | src/pages/Home.tsx:26 | the card shows the decimal digits of `productsBuilt`, without a leading zero |
| Home.YearsBuildingStat | src/pages/Home.tsx:32 | the card shows the decimal digits of `yearsBuilding`, without a leading zero |
| Home.StatsInData | src/pages/Home.tsx:24-35 | the shipped cards read "13" and "2", and 13 equals the number of projects |
| ProjectCard.TypeConfigUsesTone | src/components/ProjectCard.tsx:14-35 | the card's type badge is the solid class of the type's tone, the same as the related badge |
| ProjectCard.TypeIcons | src/components/ProjectCard.tsx:14-35 | Failed and Ongoing share the calendar icon; Success and Free Tool each have their own |
| ProjectCard.ShownTags | src/components/ProjectCard.tsx:136 | at most four tag badges, a prefix of the tags |
| ProjectCard.MoreTags | src/components/ProjectCard.tsx:145-149 | the "+N more" badge exists iff there are more than four tags |
| ProjectCard.TagBadgesCountEveryTag | src/components/ProjectCard.tsx:136-149 | shown badges plus N account for every tag; without the badge all tags are shown |
| ProjectCard.MoreLabel | src/components/ProjectCard.tsx:147 | the label is "+", decimal digits without a leading zero whose value is N, then " more" |
| ProjectCard.RouteParam | src/pages/CaseStudy.tsx:32 | a parsed `:id` is one non-empty segment that rebuilds the path |
| ProjectCard.LinkRoundTrip | src/components/ProjectCard.tsx:155 | the link built from a non-empty slash-free id parses back to that id |
| ProjectCard.IdsAreRouteSegments | src/data/portfolio.ts:56-503 | every shipped id is non-empty and slash-free |
| ProjectCard.CardLinkOpensCaseStudy | src/components/ProjectCard.tsx:155 | every card's link opens that project's own case study, never the redirect |
| ProjectCard.VisitLiveMatchesLiveLink | src/components/ProjectCard.tsx:162 | the card's "Visit Live" renders under the same condition as the case-study button |
| Navbar.HomeOnlyAtRoot | src/components/Navbar.tsx:61-66 | Home is active iff the path is "/", and then no other item is |
| Navbar.AtMostOneActive | src/components/Navbar.tsx:61-66 | for every path at most one navigation item is active |
| Navbar.PrefixMatchExamples | src/components/Navbar.tsx:65 | prefix matching activates Portfolio on "/portfolio/saas" and Blog on "/blogroll" |
| Navbar.InitialDark | src/components/Navbar.tsx:34-46 | dark if "dark" is stored; light for any other non-empty value; the system preference when nothing or "" is stored |
| Navbar.ThemeValue | src/components/Navbar.tsx:52-58 | the stored value is non-empty and is "dark" iff the theme is dark |
| Navbar.StoredThemeRestored | src/components/Navbar.tsx:34-59 | a stored theme is restored on the next mount whatever the system prefers |
| Navbar.NavbarState.constructor | src/components/Navbar.tsx:34-46 | on mount the menu is closed, the page is unscrolled, and the theme is chosen as above and shown |
| Navbar.NavbarState.ToggleTheme | src/components/Navbar.tsx:48-59 | the theme flips, the page shows it and storage holds it |
| Navbar.NavbarState.OnScroll | src/components/Navbar.tsx:26-28 | scrolled iff scrollY exceeds 20 |
| Navbar.NavbarState.ToggleMenu | src/components/Navbar.tsx:149 | the menu button flips the menu and changes nothing else |
| Navbar.NavbarState.CloseMenu | src/components/Navbar.tsx:175 | a mobile link closes the menu and changes nothing else |
| Navbar.ToggleTwice | src/components/Navbar.tsx:48-59 | two toggles restore the theme, and the next mount restores it from storage |
| Text.Lower | src/pages/Portfolio.tsx:24 | lower-casing keeps the length, maps each upper-case ASCII letter to its lower-case form and leaves every other character alone |
| Text.ContainsIffOccurs | src/pages/Portfolio.tsx:24 | `includes` holds iff the needle occurs at some position |
| Text.DigitRunUnique | src/pages/Portfolio.tsx:234 | a run of digits followed by a non-digit splits off a string in only one way |
| Text.JoinSplit | src/pages/CaseStudy.tsx:180 | joining the words of a split with the separator gives back the title |
| Text.NatToStringValue | src/pages/Home.tsx:26 | `toString` of a count is a string of digits whose value is the count |
| Text.IntToStringInjective | src/pages/Home.tsx:26 | different integers print differently |

## Left out

- Text.Lower: lower-cases ASCII letters only. `toLowerCase` also folds non-ASCII letters, so the model's search is weaker on non-ASCII text.
- Display.DurationText: `toLocaleDateString('en-US', …)` is a parameter `fmt`. The model says nothing about how a month is spelled, or about `new Date` on a malformed date.
- CaseStudy.SeoDescription, Display.Initials, Blog.CardInitials: count characters, where JavaScript's `slice` and `w[0]` count UTF-16 code units. A surrogate pair can be cut in the source (a description cut at 160, an initial taken from a word starting with an astral character) but not in the model.
- Portfolio.PortfolioPage.ClearFilters: does not itself state that every project is listed afterwards. Portfolio.ClearedPageListsAllProjects states that about the same filter values.
- Content.MilestonesFacts: compares only two milestone dates, to show that the timeline list is not in date order. The other milestone dates are not ordered against each other, because no page sorts them.
- The "Monthly MRR" and "Total Users" stat cards: they divide by 1000 and print with `toFixed`. Floating point is not modelled.
- `toLocaleString` of the users and revenue metrics is not modelled. Only what renders in the metric's place is: nothing, a stray "0", or a badge with the value.
- The DOM is reduced to fields of `NavbarState`:
  - the `dark` class on the page becomes `darkClass`;
  - `localStorage` becomes `storedTheme`;
  - `matchMedia` becomes the `prefersDark` parameter;
  - `scrollY` becomes a parameter.
  Listener registration and removal are left out.
- React scheduling is not modelled. Each setter call is one method call taking effect at once.
- Also not modelled: the framer-motion animations, images, icons as components, and the Home hero text.
- The router's path-to-parameter step is modelled only for `/case-study/:id`. The other routes are not.
- `SEOHead.tsx`, `Footer.tsx`, `Tag.tsx`, `Timeline.tsx` and `About.tsx` are presentation-only components and are not part of this model.

## Findings

| source | as written | input that shows it | evidently intended | confidence | as-written member | corrected member |
|---|---|---|---|---|---|---|
| src/pages/Blog.tsx:29 | `regularPosts` drops every featured post from the filtered list. The featured card (line 106) is shown only with no search and no tag. So a featured post that matches an active filter is shown nowhere. | Select the "Pricing" chip. Its only post, "saas-pricing", is featured, and the page reads "No articles found". | Drop a featured post from the grid only while it is shown in the featured card. | not executed | Blog.PricingChipShowsNothing, Blog.FeaturedMatchHidden, Blog.RegularPosts | Blog.ListedPosts, Blog.EveryMatchShownOnce, Blog.PricingChipListsPost |
| src/components/ProjectCard.tsx:125 | `{project.metrics.revenue && (...)}` evaluates to the number 0 when the revenue is 0, and React prints it. The users badge (line 119) and the case-study page (`src/pages/CaseStudy.tsx:126-137`) do the same. | Any shipped project: every revenue is 0, so every card shows a stray "0" where the revenue badge would be. Six projects, "Dating-App-Website" among them, have 0 users and show a second one. | Show nothing for a zero metric. | not executed | Display.RenderedMetric, Display.StrayZeroInData, Display.StrayUsersInData | Display.IntendedMetric, Display.IntendedMetricDiffersOnlyOnZero, Display.NoRevenueBadgeInData |

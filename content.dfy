/**
 * The content store of the site: the record types of `src/data/portfolio.ts`
 * and its four constant collections, with the facts about the shipped data
 * that the pages rely on (unique ids, the types in list order, finished and
 * ordered durations, which posts are featured).
 */
module Content {
  import opened Optional
  import opened Seqs
  import opened Text

  /** `Project.type`: the classification used for filtering and badges. */
  datatype ProjectType = Success | FreeTool | Failed | Ongoing

  /** `Project.status`: the lifecycle label, independent of the type. */
  datatype ProjectStatus = Active | Archived | Failed | Completed

  /** `Milestone.type`. */
  datatype MilestoneType = Launch | Revenue | Users | Feature | Learning

  /** `duration`: `start` and `end` are "YYYY-MM"; an absent `end` means ongoing. */
  datatype Duration = Duration(start: string, end: Option<string>)

  datatype TechStack = TechStack(frontend: seq<string>, backend: seq<string>, database: seq<string>, tools: seq<string>)

  datatype Metrics = Metrics(users: Option<int>, revenue: Option<int>, growth: Option<string>)

  /** `links`; `case_study` is spelled `caseStudy` here. */
  datatype Links = Links(live: Option<string>, github: Option<string>, caseStudy: Option<string>)

  /** `Project`; its `type` field is called `kind` here (`type` is a Dafny keyword). */
  datatype Project = Project(
    id: string,
    title: string,
    description: string,
    longDescription: string,
    bannerImage: string,
    logoImage: Option<string>,
    tags: seq<string>,
    duration: Duration,
    kind: ProjectType,
    arrMilestone: Option<string>,
    status: ProjectStatus,
    lessons: Option<seq<string>>,
    techStack: TechStack,
    metrics: Option<Metrics>,
    links: Option<Links>)

  /** `BlogPost`; `featured` is optional and only `true` counts as featured. */
  datatype BlogPost = BlogPost(
    id: string,
    title: string,
    description: string,
    content: string,
    publishedAt: string,
    readTime: int,
    tags: seq<string>,
    featured: Option<bool>)

  /** `Milestone`; its `type` field is called `kind` here. */
  datatype Milestone = Milestone(
    id: string,
    date: string,
    title: string,
    description: string,
    kind: MilestoneType,
    value: Option<string>)

  /** `personalInfo`; `social` maps a platform name to a URL, `''` meaning none. */
  datatype PersonalInfo = PersonalInfo(
    name: string,
    title: string,
    bio: string,
    currentMRR: int,
    totalUsers: int,
    productsBuilt: int,
    yearsBuilding: int,
    location: string,
    email: string,
    social: map<string, string>)

  /** The label `type` holds in the source, which the type selector compares against. */
  function TypeLabel(t: ProjectType): (r: string)
    ensures r != "All"
  {
    match t
    case Success => "Success"
    case FreeTool => "Free Tool"
    case Failed => "Failed"
    case Ongoing => "Ongoing"
  }

  /** Distinct types have distinct labels, so a label selects exactly one type. */
  lemma TypeLabelInjective(s: ProjectType, t: ProjectType)
    ensures TypeLabel(s) == TypeLabel(t) <==> s == t
  {
  }

  /** The truthiness of `post.featured`: absent and `false` both mean not featured. */
  predicate IsFeatured(p: BlogPost) {
    p.featured == Some(true)
  }

  /** `projects`, in source order. */
  const Projects: seq<Project> := [
    Project(
      id := "Google-Maps-Company-scraper",
      title := "Google Maps Scraper",
      description := "Build a Business scraper to analyse x companies in x regeon. and also usefull for later to have a DB with companies i can contact for my future saas.",
      longDescription := "",
      bannerImage := "/projects/saas-analytics-banner.jpg",
      logoImage := Some("/projects/saas-analytics-logo.png"),
      tags := ["Python", "CSV", "Playwright scraper", "IP Rotation", "Paralel speed"],
      duration := Duration("2023-12", Some("2023-12")),
      kind := FreeTool,
      arrMilestone := Some("$0"),
      status := Completed,
      lessons := Some(["Scraping data with IP rotation and efficiency of paralel scripts", "Data organizing cleaning and storing for future expantion"]),
      techStack := TechStack(
        frontend := ["NO"],
        backend := ["Python"],
        database := ["CSV"],
        tools := ["Playwright scraper", "IP rotation", "Paralel scripts"]),
      metrics := Some(Metrics(users := Some(1), revenue := Some(0), growth := None)),
      links := Some(Links(live := Some("https://github.com/xgino/Google-Map-Scaper"), github := None, caseStudy := Some("/case-study/saas-analytics")))),
    Project(
      id := "Website-Contact-Email-scraper",
      title := "Website Email Scraper",
      description := "Build a Email scraper base on the Google maps scraper, after we got the business data to scrape emails of those comanies for later to contact with",
      longDescription := "",
      bannerImage := "/projects/saas-analytics-banner.jpg",
      logoImage := Some("/projects/saas-analytics-logo.png"),
      tags := ["Python", "CSV", "Bs4 scraper", "Paralel speed"],
      duration := Duration("2023-12", Some("2023-12")),
      kind := FreeTool,
      arrMilestone := Some("$0"),
      status := Completed,
      lessons := Some(["GPDR of EU on email collection. since this is public available data. its the same as doing this manualy. ofc respecting robots.txt and policy first before scraping anything.", "Unfortunately no IP rotation, since we are visiting each website 1x so there is not need for a ip rotate, but scraping 100k websites might seem weird to my internet provider. no normal person visits 100k websites a day. and internet is very slow while in use", "Every website has a difirent structure and where they put email, in contact, support, or other pages. maybe footer header everywhere is possible. so we need a scipt that is adaptable to any website"]),
      techStack := TechStack(
        frontend := ["NO"],
        backend := ["Python"],
        database := ["CSV"],
        tools := ["BS4 scraper", "Paralel scripts"]),
      metrics := Some(Metrics(users := Some(1), revenue := Some(0), growth := None)),
      links := Some(Links(live := Some("https://github.com/xgino/Email-Web-Scraper"), github := None, caseStudy := Some("/case-study/saas-analytics")))),
    Project(
      id := "Dating-App-Website",
      title := "Dating Web App",
      description := "Build a dating website with ML match algor, to match perfect between users.",
      longDescription := "",
      bannerImage := "/projects/saas-analytics-banner.jpg",
      logoImage := Some("/projects/saas-analytics-logo.png"),
      tags := ["Python", "Html", "CSS", "JS", "ML matching alg"],
      duration := Duration("2024-01", Some("2024-03")),
      kind := ProjectType.Failed,
      arrMilestone := Some("$0"),
      status := Archived,
      lessons := Some(["Did some marketing beforhand and see cases that succeeded", "Building Frontend website with swipe functions", "Didint dive deeper into the marketing aspect wich critical", "Luckly i didnt build the match algorithm yet, so not much time has been wasted beside webdev"]),
      techStack := TechStack(
        frontend := ["HTML", "CSS", "JS"],
        backend := ["Django"],
        database := ["PostgreSQL"],
        tools := ["Web Design", "Backend dev", "Frontend dev"]),
      metrics := Some(Metrics(users := Some(0), revenue := Some(0), growth := None)),
      links := Some(Links(live := Some("https://github.com/xgino/Cupid"), github := None, caseStudy := Some("/case-study/saas-analytics")))),
    Project(
      id := "Web-Agency",
      title := "WebResolute Web Agency",
      description := "Since i have exp with Frontend Backend dev, i can do full stack dev so I can freelance with webagency. ",
      longDescription := "",
      bannerImage := "/projects/saas-analytics-banner.jpg",
      logoImage := Some("/projects/saas-analytics-logo.png"),
      tags := ["Python", "Html", "CSS", "JS", "Django"],
      duration := Duration("2024-04", Some("2024-09")),
      kind := ProjectType.Failed,
      arrMilestone := Some("$0"),
      status := Archived,
      lessons := Some(["Didnt spend much on marketing, wich is the case of fail", "did research on similair angecies but am bad with marketing"]),
      techStack := TechStack(
        frontend := ["HTML", "CSS", "JS"],
        backend := ["Django"],
        database := ["PostgreSQL"],
        tools := ["Web Design", "Backend dev", "Frontend dev"]),
      metrics := Some(Metrics(users := Some(0), revenue := Some(0), growth := None)),
      links := Some(Links(live := Some("https://webresolute.com"), github := None, caseStudy := Some("/case-study/saas-analytics")))),
    Project(
      id := "Data-Agency",
      title := "Bolar Data Agency",
      description := "Since i study CS student, Why not selling some data? since we work somuch with data. so data angency selling data I scrape form the internet.",
      longDescription := "",
      bannerImage := "/projects/saas-analytics-banner.jpg",
      logoImage := Some("/projects/saas-analytics-logo.png"),
      tags := ["Python", "Html", "CSS", "JS", "Django"],
      duration := Duration("2024-04", Some("2024-05")),
      kind := ProjectType.Failed,
      arrMilestone := Some("$0"),
      status := Archived,
      lessons := Some(["Didnt spend much on marketing, wich is the case of fail", "did research on similair angecies but am bad with marketing"]),
      techStack := TechStack(
        frontend := ["HTML", "CSS", "JS"],
        backend := ["Django"],
        database := ["PostgreSQL"],
        tools := ["Web Design", "Backend dev", "Frontend dev"]),
      metrics := Some(Metrics(users := Some(0), revenue := Some(0), growth := None)),
      links := Some(Links(live := Some("https://bolar.co"), github := None, caseStudy := Some("/case-study/saas-analytics")))),
    Project(
      id := "Sandhook-Emailer",
      title := "Sandhook Cold Email Automation",
      description := "Since I have all the data, I shuold build a email sender that is able to send cold emails to new potential users or clients. also good for my future saas to find users.",
      longDescription := "",
      bannerImage := "/projects/saas-analytics-banner.jpg",
      logoImage := Some("/projects/saas-analytics-logo.png"),
      tags := ["Cold Email", "Email sender", "Email Campaigne", "Python", "Django"],
      duration := Duration("2024-06", Some("2024-09")),
      kind := Ongoing,
      arrMilestone := Some("$0"),
      status := Archived,
      lessons := Some(["Build the nice landing page in hope users will signup for a preorder no users", "no marketing was done so This is the issue.", "Have a version that works on my local machine but since there is no presignups and my MVP is not ready yet i have left this for now as it is"]),
      techStack := TechStack(
        frontend := ["HTML", "CSS", "JS"],
        backend := ["Django"],
        database := ["PostgreSQL"],
        tools := ["Python"]),
      metrics := Some(Metrics(users := Some(5), revenue := Some(0), growth := None)),
      links := Some(Links(live := Some("https://sandhook.com"), github := None, caseStudy := Some("/case-study/saas-analytics")))),
    Project(
      id := "QR-Generator",
      title := "QRDive - QR Tracking SaaS",
      description := "QR code generator & tracking SaaS with Stripe.",
      longDescription := "First real SaaS with subscription system. Learned Stripe deeply, handled user data, built full product in ~2 months. Later tried ads, SEO, posting on HN/ProductHunt but failed to scale due to boring niche.",
      bannerImage := "/projects/saas-analytics-banner.jpg",
      logoImage := Some("/projects/saas-analytics-logo.png"),
      tags := ["Django", "QR", "SaaS", "Stripe"],
      duration := Duration("2024-07", Some("2025-05")),
      kind := Ongoing,
      arrMilestone := Some("$0"),
      status := Active,
      lessons := Some(["Stripe integration into my django site took about 50% of the build duration 2 weeks of 4.", "Posting on all channels are not usefull, since ProductHunt all visitors are devs or scouts. QR is kinda old tech and not relevant to the users", "Boilerplate is really needed for a smooth future saas dev"]),
      techStack := TechStack(
        frontend := ["HTML", "CSS", "JS"],
        backend := ["Django"],
        database := ["SQLite"],
        tools := ["Python"]),
      metrics := Some(Metrics(users := Some(45), revenue := Some(0), growth := None)),
      links := Some(Links(live := Some("https://qrdive.com"), github := None, caseStudy := Some("/case-study/saas-analytics")))),
    Project(
      id := "Saas-Boilerplate",
      title := "Saas Django Boilerplate",
      description := "Prebuild saas boilerplate with user auth, stripe and defailt items needed in every saas",
      longDescription := "After QR dive, I see boilerplate is essential to build my future saas to have a more saass factory. So i never want to spend 2 weeks on stripe again, and also building user auth for every app took about 2h each saas so with this i can simply clone the github boilerplate and save hours of work and directly start with feature development to launch in 40h",
      bannerImage := "/projects/saas-analytics-banner.jpg",
      logoImage := Some("/projects/saas-analytics-logo.png"),
      tags := ["Django", "SaaS", "User Auth", "Stripe"],
      duration := Duration("2025-02", Some("2025-03")),
      kind := Ongoing,
      arrMilestone := Some("$0"),
      status := Active,
      lessons := Some(["Save time by not doing stripe anymore", "dont waste time on user auth for every project", "Save 100h + of dev time"]),
      techStack := TechStack(
        frontend := ["HTML", "CSS", "JS"],
        backend := ["Django", "Stripe"],
        database := ["SQLite"],
        tools := ["Django", "Stripe"]),
      metrics := Some(Metrics(users := Some(0), revenue := Some(0), growth := None)),
      links := Some(Links(live := Some("https://hoverlab.co"), github := None, caseStudy := Some("/case-study/saas-analytics")))),
    Project(
      id := "Product-Text-Generator",
      title := "Shoptekst - AI Product Description Generator",
      description := "SEO-rich product description generator for Bol.com & shopify sellers.",
      longDescription := "Built in 1 week using boilerplate. Uses GPT API for SEO keyword-rich product descriptions. Manual outreach → 2 users but little activity. Learned GPT API + prompt engineering.",
      bannerImage := "/projects/saas-analytics-banner.jpg",
      logoImage := Some("/projects/saas-analytics-logo.png"),
      tags := ["GPT", "SEO", "Ecommerce", "Django"],
      duration := Duration("2025-06", Some("2025-06")),
      kind := Ongoing,
      arrMilestone := Some("$0"),
      status := Active,
      lessons := Some(["Spend 10h to send manual emails to businesses on Bol contact form. with no result.", "Perhaps I need a guide JS that teach user how to use my app"]),
      techStack := TechStack(
        frontend := ["HTML", "CSS", "JS"],
        backend := ["Django", "Stripe"],
        database := ["SQLite"],
        tools := ["Django", "Stripe", "OpenAPI API"]),
      metrics := Some(Metrics(users := Some(5), revenue := Some(0), growth := None)),
      links := Some(Links(live := Some("https://shoptekst.nl"), github := None, caseStudy := Some("/case-study/saas-analytics")))),
    Project(
      id := "Barbeon",
      title := "Barbeon - Barber Booking Platform",
      description := "Booking system concept for barbers.",
      longDescription := "Landing page MVP to validate barber booking platform idea (reduce no-shows). Similar to ticket sales platform. Early stage only.",
      bannerImage := "/projects/saas-analytics-banner.jpg",
      logoImage := Some("/projects/saas-analytics-logo.png"),
      tags := ["Booking", "Django"],
      duration := Duration("2025-07", Some("2025-07")),
      kind := Ongoing,
      arrMilestone := Some("$0"),
      status := Active,
      lessons := Some([]),
      techStack := TechStack(
        frontend := ["React"],
        backend := ["Fast API"],
        database := ["SQL"],
        tools := ["React", "Python", "Fast API"]),
      metrics := Some(Metrics(users := Some(0), revenue := Some(0), growth := None)),
      links := Some(Links(live := Some("https://barbeon.com"), github := None, caseStudy := Some("/case-study/saas-analytics")))),
    Project(
      id := "Halalspace",
      title := "Halalspace - Local Event Platform",
      description := "Event posting + future ticket sales with commission.",
      longDescription := "Reused boilerplate to build Halalspace MVP in 1 week. Focus on SEO structured URLs for events. First stage = posting only, ticket sales later.",
      bannerImage := "/projects/saas-analytics-banner.jpg",
      logoImage := Some("/projects/saas-analytics-logo.png"),
      tags := ["Events", "SEO", "Web"],
      duration := Duration("2025-08", Some("2025-08")),
      kind := Ongoing,
      arrMilestone := Some("$0"),
      status := Active,
      lessons := Some(["Build a SEO optimized URL for Events in Search Engines like Google", "SEO structure critical for event platforms"]),
      techStack := TechStack(
        frontend := ["HTML", "CSS", "JS"],
        backend := ["Django"],
        database := ["SQLite"],
        tools := ["Django", "Stripe"]),
      metrics := Some(Metrics(users := Some(2), revenue := Some(0), growth := None)),
      links := Some(Links(live := Some("https://halalspace.nl"), github := None, caseStudy := Some("/case-study/saas-analytics")))),
    Project(
      id := "Invoicor",
      title := "Invoicor - Free Invoice Generator",
      description := "Free invoice generation tool.",
      longDescription := "Built in 10h before uni start. Free tool to auto-generate invoices instead of manual work. Simple and effective.",
      bannerImage := "/projects/saas-analytics-banner.jpg",
      logoImage := Some("/projects/saas-analytics-logo.png"),
      tags := ["Free Tool", "Finance"],
      duration := Duration("2025-08", Some("2025-08")),
      kind := FreeTool,
      arrMilestone := Some("$0"),
      status := Active,
      lessons := Some(["This free tool can promote one of my saas or future saas."]),
      techStack := TechStack(
        frontend := ["HTML", "CSS", "JS"],
        backend := ["No"],
        database := ["No"],
        tools := ["CSS", "JS"]),
      metrics := Some(Metrics(users := Some(21), revenue := Some(0), growth := None)),
      links := Some(Links(live := Some("https://invoicor.com"), github := None, caseStudy := Some("/case-study/saas-analytics")))),
    Project(
      id := "Internship-Scraper",
      title := "Internship & Jobs Scraper",
      description := "Scraper + marketplace for internships/jobs.",
      longDescription := "Started for required uni internship. Internship scraper in AI/DS → expandable to job listings + CV checker matching. Long-term vision: free job marketplace.",
      bannerImage := "/projects/saas-analytics-banner.jpg",
      logoImage := Some("/projects/saas-analytics-logo.png"),
      tags := ["Scraper", "Jobs", "AI"],
      duration := Duration("2025-09", Some("2025-11")),
      kind := FreeTool,
      arrMilestone := Some("$0"),
      status := Active,
      lessons := Some([]),
      techStack := TechStack(
        frontend := ["No"],
        backend := ["Python"],
        database := ["CSV"],
        tools := ["Python"]),
      metrics := Some(Metrics(users := Some(0), revenue := Some(0), growth := None)),
      links := Some(Links(live := Some("https://github.com/xgino/Internship-Scraper"), github := None, caseStudy := Some("/case-study/saas-analytics"))))
  ]

  /** `blogPosts`, in source order. */
  const BlogPosts: seq<BlogPost> := [
    BlogPost(
      id := "seo-basics",
      title := "SEO for SaaS: Beyond Head Tags",
      description := "In-page keyword targeting, indexing, and keeping up with trends.",
      content := "SEO is not just about meta head tags. You need in-page keyword targeting, adding your site to Google Search Console, and requesting indexing. Keywords should be updated regularly based on trends.",
      publishedAt := "2024-01-10",
      readTime := 6,
      tags := ["SEO", "SaaS", "Marketing"],
      featured := Some(true)),
    BlogPost(
      id := "google-ads-targeting",
      title := "Google Ads for SaaS: Going Hyper-Specific",
      description := "Why subcategories and local targeting lower CPC and improve conversion.",
      content := "Instead of broad keywords, create subcategories. Example: “QR code generator for seasonal sales in Rotterdam.” Very specific keywords mean lower cost per click and higher intent.",
      publishedAt := "2024-02-05",
      readTime := 7,
      tags := ["Ads", "SaaS", "Growth"],
      featured := None),
    BlogPost(
      id := "seo-urls-platforms",
      title := "SEO-Friendly URLs for Platforms & SaaS",
      description := "Dynamic vs stored URLs, broken links, and Google ranking impact.",
      content := "URLs should contain keywords: e.g. halalspace.nl/events/Bazar_Rotterdam/09sep2025. Problem: if users edit, links break and rankings drop. Fix: save canonical URL in DB and redirect by ID (/events/213).",
      publishedAt := "2024-03-01",
      readTime := 8,
      tags := ["SEO", "SaaS", "Platforms"],
      featured := None),
    BlogPost(
      id := "head-tags-strategy",
      title := "Dynamic Head Tags for SaaS Growth",
      description := "How to generate page-specific SEO head tags for better indexing.",
      content := "Each mini page (events, ecommerce items) needs its own meta description and keywords. Update tags regularly depending on trends.",
      publishedAt := "2024-03-20",
      readTime := 5,
      tags := ["SEO", "SaaS"],
      featured := None),
    BlogPost(
      id := "hosting-options",
      title := "Cheap SaaS Hosting: When Shared Hosting is Enough",
      description := "Using Namecheap, cPanel, and when to move to VPS.",
      content := "Namecheap shared hosting: ~€70/year for 10 sites, fine if <500 visitors per month each. SSL costs extra unless on VPS. Good support, but scaling means moving.",
      publishedAt := "2024-04-10",
      readTime := 6,
      tags := ["Hosting", "SaaS", "Tools"],
      featured := None),
    BlogPost(
      id := "page-speed-matters",
      title := "Why Page Speed is Critical in SaaS",
      description := "3s slower load = churn. Optimize images, CSS, JS, load order.",
      content := "Optimize critical CSS/JS first, defer unused resources. Every second counts, directly impacts retention and revenue.",
      publishedAt := "2024-05-01",
      readTime := 6,
      tags := ["Performance", "SaaS", "UX"],
      featured := None),
    BlogPost(
      id := "landing-pages-seo",
      title := "Multi-Landing Pages for SEO Wins",
      description := "Target different audiences (Amazon, Shopify, Squarespace) with custom pages.",
      content := "Each landing page should have audience-specific SEO head tags. More targeted pages → more keywords indexed → higher ranking.",
      publishedAt := "2024-05-20",
      readTime := 7,
      tags := ["SEO", "SaaS", "Growth"],
      featured := None),
    BlogPost(
      id := "analytics-for-saas",
      title := "Using Analytics to Fix SaaS UX",
      description := "Google Analytics + PostHog to spot weak points in your funnel.",
      content := "Check scroll depth, bounce rates, drop-off points. Example: if nobody scrolls past hero, redesign. If users sign up but don’t continue, onboarding fails.",
      publishedAt := "2024-06-05",
      readTime := 8,
      tags := ["Analytics", "SaaS", "UX"],
      featured := None),
    BlogPost(
      id := "free-tools-strategy",
      title := "Free Tools as SaaS Marketing (Invoicor Case)",
      description := "How free tools + AdSense can drive traffic and awareness.",
      content := "Built Invoicor as free invoice generator. Free tools bring organic traffic, can monetize with AdSense, but you need huge volumes. Works better for blogs/tools than B2B SaaS.",
      publishedAt := "2024-07-01",
      readTime := 9,
      tags := ["Growth", "SaaS", "Marketing"],
      featured := None),
    BlogPost(
      id := "saas-pricing",
      title := "Finding the Right SaaS Pricing Strategy",
      description := "How to research competitors and avoid feature bloat.",
      content := "Check 5 competitors → map features + pricing. Too few competitors = bad market. Don’t overbuild. Focus on features that sell. Quality > quantity.",
      publishedAt := "2024-08-01",
      readTime := 10,
      tags := ["Pricing", "SaaS", "Growth"],
      featured := Some(true)),
    BlogPost(
      id := "selling-before-building",
      title := "Sell Before You Build: The SaaS Pre-Sell Strategy",
      description := "Pitch features before coding to validate demand.",
      content := "Sometimes you should sell the vision first. Works best for big projects needing investment. Helps validate demand before wasting time building.",
      publishedAt := "2024-09-01",
      readTime := 7,
      tags := ["Validation", "SaaS", "Strategy"],
      featured := None)
  ]

  /** `milestones`, in source order (which is not date order). */
  const Milestones: seq<Milestone> := [
    Milestone(id := "maps-scraper-build", date := "2023-12", title := "Built Google Maps Scraper",
      description := "Created CLI scraper integrated with Github", kind := Learning, value := None),
    Milestone(id := "email-scraper-build", date := "2023-12", title := "Built Email Scraper",
      description := "Automated tool to scrape emails from websites", kind := Learning, value := None),
    Milestone(id := "dating-app-failure", date := "2024-03", title := "Dating App Dropped",
      description := "80% built but failed due to critical marketing issues", kind := Learning, value := None),
    Milestone(id := "webresolute Webagency", date := "2024-04", title := "Started Webresolute Agency",
      description := "Launched freelance web agency, later dropped due to burnout risk", kind := Learning, value := None),
    Milestone(id := "bolar Dataangency", date := "2024-05", title := "Bolar Data Agency Dropped",
      description := "No buyers due to lack of marketing/SEO", kind := Learning, value := None),
    Milestone(id := "Sandhook-Build", date := "2024-06", title := "Sandhook Cold Email Automation",
      description := "Built CLI backend for cold emails, project not completed", kind := Learning, value := None),
    Milestone(id := "QRDive-launch", date := "2024-10", title := "QRDive SaaS Launch",
      description := "First SaaS with Stripe subscriptions and QR tracking", kind := Launch, value := None),
    Milestone(id := "ads-test-webresolute", date := "2024-09", title := "Spent €200 on Ads",
      description := "Tried ads for Webresolute → no clients, wasted money", kind := Learning, value := None),
    Milestone(id := "stripe-boilerplate", date := "2025-02", title := "Stripe Boilerplate Build",
      description := "Created boilerplate to save weeks on future SaaS billing integrations", kind := Learning, value := None),
    Milestone(id := "ads-test-qrdive", date := "2025-03", title := "Spent €200 Ads on QRDive",
      description := "Another failed ad test, deeper learning on ads creation", kind := Learning, value := None),
    Milestone(id := "shoptekst-launch", date := "2025-06", title := "Shoptekst Launched",
      description := "SEO-rich product description generator built in 1 week", kind := Launch, value := None),
    Milestone(id := "barbeon-start", date := "2025-07", title := "Barbeon MVP Landing Page",
      description := "Barber booking platform idea validation via landing page", kind := Launch, value := None),
    Milestone(id := "halalspace-launch", date := "2025-08", title := "Halalspace MVP Launched",
      description := "Local event posting platform launched in 1 week", kind := Launch, value := None),
    Milestone(id := "invoicor-launch", date := "2025-08", title := "Invoicor Built in 10h",
      description := "Launched free invoice generator tool", kind := Launch, value := None),
    Milestone(id := "internship-scraper-start", date := "2025-09", title := "Internship Scraper Start",
      description := "Started scraper for internships and jobs, expandable to CV checker", kind := Learning, value := None)
  ]

  /** `personalInfo`. */
  const Info: PersonalInfo := PersonalInfo(
    name := "Gin",
    title := "SaaS Founder & Indie Hacker",
    bio := "Building my way to $1M ARR through multiple SaaS products. I share everything I learn about building, growing, and scaling software businesses.",
    currentMRR := 0,
    totalUsers := 124,
    productsBuilt := 13,
    yearsBuilding := 2,
    location := "The Netherland",
    email := "qingge43@gmail.com",
    social := map["twitter" := "", "linkedin" := "", "github" := "https://github.com/xgino"])

  // ---------------------------------------------------------------- dates

  /** The value of the decimal digit at position `i`. */
  function DigitAt(s: string, i: nat): (d: nat)
    requires i < |s| && IsDigit(s[i])
    ensures d < 10
  {
    s[i] as int - '0' as int
  }

  /** A "YYYY-MM" string: four digits, a dash, two digits naming a month 01..12. */
  predicate IsYearMonth(s: string) {
    |s| == 7 && s[4] == '-' &&
    IsDigit(s[0]) && IsDigit(s[1]) && IsDigit(s[2]) && IsDigit(s[3]) && IsDigit(s[5]) && IsDigit(s[6]) &&
    1 <= DigitAt(s, 5) * 10 + DigitAt(s, 6) <= 12
  }

  /** The number of months from January of year 0 to the month a "YYYY-MM" string names. */
  function MonthIndex(s: string): nat
    requires IsYearMonth(s)
  {
    (((DigitAt(s, 0) * 10 + DigitAt(s, 1)) * 10 + DigitAt(s, 2)) * 10 + DigitAt(s, 3)) * 12
      + DigitAt(s, 5) * 10 + DigitAt(s, 6) - 1
  }

  /** The month index splits back into the year and the month it was built from. */
  lemma MonthIndexParts(s: string)
    requires IsYearMonth(s)
    ensures MonthIndex(s) / 12 == ((DigitAt(s, 0) * 10 + DigitAt(s, 1)) * 10 + DigitAt(s, 2)) * 10 + DigitAt(s, 3)
    ensures MonthIndex(s) % 12 + 1 == DigitAt(s, 5) * 10 + DigitAt(s, 6)
  {
  }

  // ---------------------------------------------------------------- facts about the shipped data

  /**
   * The ids and the types of the shipped projects, in list order, listed
   * apart from the records so that facts about them can be proved without
   * unfolding every record.
   */
  const ProjectIds: seq<string> := [
    "Google-Maps-Company-scraper", "Website-Contact-Email-scraper", "Dating-App-Website",
    "Web-Agency", "Data-Agency", "Sandhook-Emailer",
    "QR-Generator", "Saas-Boilerplate", "Product-Text-Generator",
    "Barbeon", "Halalspace", "Invoicor",
    "Internship-Scraper"]

  const ProjectKinds: seq<ProjectType> := [
    FreeTool, FreeTool, ProjectType.Failed, ProjectType.Failed, ProjectType.Failed,
    Ongoing, Ongoing, Ongoing, Ongoing, Ongoing,
    Ongoing, FreeTool, FreeTool]

  /** The two lists agree with the records. */
  lemma ProjectsTabulated()
    ensures |ProjectIds| == |Projects| && |ProjectKinds| == |Projects|
    ensures forall i | 0 <= i < |Projects| :: Projects[i].id == ProjectIds[i] && Projects[i].kind == ProjectKinds[i]
  {
    forall i | 0 <= i < |Projects| ensures Projects[i].id == ProjectIds[i] && Projects[i].kind == ProjectKinds[i] {
      if i == 0 {} else if i == 1 {} else if i == 2 {} else if i == 3 {}
      else if i == 4 {} else if i == 5 {} else if i == 6 {} else if i == 7 {}
      else if i == 8 {} else if i == 9 {} else if i == 10 {} else if i == 11 {}
      else {}
    }
  }

  /**
   * The project types in list order: two free tools, three failures, six
   * ongoing projects, two more free tools; no project is a Success.
   */
  lemma ProjectKindsInData()
    ensures forall i | 0 <= i < |Projects| ::
      Projects[i].kind == (if i < 2 || 11 <= i then FreeTool else if i < 5 then ProjectType.Failed else Ongoing)
  {
    ProjectsTabulated();
    KindListShape();
  }

  lemma KindListShape()
    ensures forall i | 0 <= i < |ProjectKinds| ::
      ProjectKinds[i] == (if i < 2 || 11 <= i then FreeTool else if i < 5 then ProjectType.Failed else Ongoing)
  {
  }

  /** The durations of the shipped projects, in list order. */
  const ProjectDurations: seq<Duration> := [
    Duration("2023-12", Some("2023-12")), Duration("2023-12", Some("2023-12")), Duration("2024-01", Some("2024-03")),
    Duration("2024-04", Some("2024-09")), Duration("2024-04", Some("2024-05")), Duration("2024-06", Some("2024-09")),
    Duration("2024-07", Some("2025-05")), Duration("2025-02", Some("2025-03")), Duration("2025-06", Some("2025-06")),
    Duration("2025-07", Some("2025-07")), Duration("2025-08", Some("2025-08")), Duration("2025-08", Some("2025-08")),
    Duration("2025-09", Some("2025-11"))]

  /** The duration list agrees with the records. */
  lemma DurationsTabulated()
    ensures |ProjectDurations| == |Projects|
    ensures forall i | 0 <= i < |Projects| :: Projects[i].duration == ProjectDurations[i]
  {
    forall i | 0 <= i < |Projects| ensures Projects[i].duration == ProjectDurations[i] {
      if i == 0 {} else if i == 1 {} else if i == 2 {} else if i == 3 {}
      else if i == 4 {} else if i == 5 {} else if i == 6 {} else if i == 7 {}
      else if i == 8 {} else if i == 9 {} else if i == 10 {} else if i == 11 {}
      else {}
    }
  }

  /**
   * A finished duration: the end date is set, both dates are "YYYY-MM" and
   * the project does not end before it starts.
   */
  predicate OrderedDuration(d: Duration) {
    d.end.Some? && d.end.value != "" && IsYearMonth(d.start) && IsYearMonth(d.end.value) &&
    MonthIndex(d.start) <= MonthIndex(d.end.value)
  }

  /** Every shipped project is finished, with well-formed dates in order. */
  lemma ProjectDurationsOrdered()
    ensures forall i | 0 <= i < |Projects| :: OrderedDuration(Projects[i].duration)
  {
    DurationsTabulated();
    DurationListOrdered();
  }

  lemma DurationListOrdered()
    ensures forall i | 0 <= i < |ProjectDurations| :: OrderedDuration(ProjectDurations[i])
  {
    EarlyDurationsOrdered();
    MiddleDurationsOrdered();
    LateDurationsOrdered();
  }

  lemma EarlyDurationsOrdered()
    ensures forall i | 0 <= i < 4 :: OrderedDuration(ProjectDurations[i])
  {
    forall i | 0 <= i < 4 ensures OrderedDuration(ProjectDurations[i]) {
      if i == 0 {} else if i == 1 {} else if i == 2 {} else {}
    }
  }

  lemma MiddleDurationsOrdered()
    ensures forall i | 4 <= i < 7 :: OrderedDuration(ProjectDurations[i])
  {
    forall i | 4 <= i < 7 ensures OrderedDuration(ProjectDurations[i]) {
      if i == 4 {} else if i == 5 {} else {}
    }
  }

  lemma LateDurationsOrdered()
    ensures forall i | 7 <= i < 13 :: OrderedDuration(ProjectDurations[i])
  {
    forall i | 7 <= i < 13 ensures OrderedDuration(ProjectDurations[i]) {
      if i == 7 {} else if i == 8 {} else if i == 9 {} else if i == 10 {} else if i == 11 {} else {}
    }
  }

  /** No two projects share an id, so lookup by id is unambiguous. */
  lemma ProjectIdsDistinct()
    ensures forall i, j :: 0 <= i < j < |Projects| ==> Projects[i].id != Projects[j].id
  {
    ProjectsTabulated();
    IdListDistinct();
  }

  lemma IdListDistinct()
    ensures NoDup(ProjectIds)
  {
  }

  /** Blog post ids are pairwise distinct and every read time is positive. */
  lemma BlogPostsWellFormed()
    ensures forall i, j :: 0 <= i < j < |BlogPosts| ==> BlogPosts[i].id != BlogPosts[j].id
    ensures forall p :: p in BlogPosts ==> p.readTime > 0
  {
  }

  /** Exactly two posts are featured: 'seo-basics' (the first post) and 'saas-pricing' (the tenth). */
  lemma FeaturedPostsInData()
    ensures forall i :: 0 <= i < |BlogPosts| ==> (IsFeatured(BlogPosts[i]) <==> i == 0 || i == 9)
    ensures BlogPosts[0].id == "seo-basics" && BlogPosts[9].id == "saas-pricing"
  {
    forall i | 0 <= i < |BlogPosts| ensures IsFeatured(BlogPosts[i]) <==> i == 0 || i == 9 {
      if i == 0 {} else if i == 1 {} else if i == 2 {} else if i == 3 {} else if i == 4 {}
      else if i == 5 {} else if i == 6 {} else if i == 7 {} else if i == 8 {} else if i == 9 {}
      else {}
    }
  }

  /** Milestone ids are pairwise distinct, but the list is not in date order. */
  lemma MilestonesFacts()
    ensures forall i, j :: 0 <= i < j < |Milestones| ==> Milestones[i].id != Milestones[j].id
    ensures Milestones[6].id == "QRDive-launch" && Milestones[7].id == "ads-test-webresolute"
    ensures Milestones[6].date == "2024-10" && Milestones[7].date == "2024-09"
    ensures IsYearMonth(Milestones[6].date) && IsYearMonth(Milestones[7].date)
    ensures MonthIndex(Milestones[7].date) < MonthIndex(Milestones[6].date)
  {
  }
}

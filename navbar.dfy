/**
 * The navigation bar: which item is highlighted for the current path, the
 * light/dark theme (restored from storage on mount, flipped by the toggle),
 * the scrolled style and the mobile menu.
 */
module Navbar {
  import opened Optional
  import opened Text

  datatype NavItem = NavItem(name: string, href: string)

  const NavItems: seq<NavItem> := [
    NavItem("Home", "/"),
    NavItem("Portfolio", "/portfolio"),
    NavItem("Blog", "/blog"),
    NavItem("About", "/about")
  ]

  /** `isActive`: the root matches only itself, any other item matches by prefix. */
  predicate IsActive(pathname: string, href: string) {
    if href == "/" then pathname == "/" else StartsWith(pathname, href)
  }

  /** Home is highlighted exactly on "/", and then no other item is. */
  lemma HomeOnlyAtRoot(pathname: string)
    ensures IsActive(pathname, "/") <==> pathname == "/"
    ensures pathname == "/" ==> forall i | 1 <= i < |NavItems| :: !IsActive(pathname, NavItems[i].href)
  {
  }

  /** For every path at most one item is highlighted. */
  lemma AtMostOneActive(pathname: string)
    ensures forall i, j | 0 <= i < j < |NavItems| ::
      !(IsActive(pathname, NavItems[i].href) && IsActive(pathname, NavItems[j].href))
  {
    forall i, j | 0 <= i < j < |NavItems|
      ensures !(IsActive(pathname, NavItems[i].href) && IsActive(pathname, NavItems[j].href))
    {
      if 0 < i && IsActive(pathname, NavItems[i].href) && IsActive(pathname, NavItems[j].href) {
        // the section prefixes already differ in their second character
        SharedPrefix(pathname, NavItems[i].href, NavItems[j].href);
      }
    }
  }

  /** Two prefixes of the same path agree on the characters both have. */
  lemma SharedPrefix(pathname: string, a: string, b: string)
    requires StartsWith(pathname, a) && StartsWith(pathname, b) && 2 <= |a| && 2 <= |b|
    ensures a[1] == b[1]
  {
    assert a[1] == pathname[..|a|][1];
    assert b[1] == pathname[..|b|][1];
  }

  /** Prefix matching also highlights "Blog" on a path such as "/blogroll". */
  lemma PrefixMatchExamples()
    ensures IsActive("/portfolio/saas", "/portfolio")
    ensures IsActive("/blogroll", "/blog")
    ensures !IsActive("/portfolio", "/")
  {
    assert "/portfolio/saas"[..10] == "/portfolio";
    assert "/blogroll"[..5] == "/blog";
  }

  /**
   * The theme chosen on mount: dark iff "dark" is stored, or nothing (or the
   * empty string) is stored and the system prefers dark.
   */
  function InitialDark(saved: Option<string>, prefersDark: bool): (dark: bool)
    ensures saved == Some("dark") ==> dark
    ensures saved.Some? && saved.value != "" && saved.value != "dark" ==> !dark
    ensures (saved.None? || saved == Some("")) ==> dark == prefersDark
  {
    saved == Some("dark") || ((saved.None? || saved.value == "") && prefersDark)
  }

  /** The string stored for a theme. */
  function ThemeValue(dark: bool): (r: string)
    ensures r != ""
    ensures r == "dark" <==> dark
  {
    if dark then "dark" else "light"
  }

  /** A stored theme is restored on the next mount, whatever the system prefers. */
  lemma StoredThemeRestored(dark: bool, prefersDark: bool)
    ensures InitialDark(Some(ThemeValue(dark)), prefersDark) == dark
  {
  }

  /** The navbar's state, the `dark` class on the page and the stored theme. */
  class NavbarState {
    var isOpen: bool
    var isDark: bool
    var scrolled: bool
    /** Whether the document root carries the `dark` class. */
    var darkClass: bool
    /** The "theme" entry of local storage. */
    var storedTheme: Option<string>

    /** The page shows the theme the navbar holds. */
    ghost predicate Valid()
      reads this
    {
      darkClass == isDark
    }

    /** Mounting: the theme effect reads storage and the media query. */
    constructor(saved: Option<string>, prefersDark: bool)
      ensures Valid()
      ensures isDark == InitialDark(saved, prefersDark)
      ensures storedTheme == saved
      ensures !isOpen && !scrolled
    {
      isOpen := false;
      scrolled := false;
      storedTheme := saved;
      var dark := InitialDark(saved, prefersDark);
      isDark := dark;
      darkClass := dark;
    }

    /** `toggleTheme`: flip the theme, show it and store it. */
    method ToggleTheme()
      modifies this
      requires Valid()
      ensures Valid()
      ensures isDark == !old(isDark)
      ensures storedTheme == Some(ThemeValue(isDark))
      ensures isOpen == old(isOpen) && scrolled == old(scrolled)
    {
      var newTheme := !isDark;
      isDark := newTheme;
      if newTheme {
        darkClass := true;
        storedTheme := Some("dark");
      } else {
        darkClass := false;
        storedTheme := Some("light");
      }
    }

    /** The scroll listener. */
    method OnScroll(scrollY: real)
      modifies this
      requires Valid()
      ensures Valid()
      ensures scrolled == (scrollY > 20.0)
      ensures isOpen == old(isOpen) && isDark == old(isDark) && storedTheme == old(storedTheme)
    {
      scrolled := scrollY > 20.0;
    }

    /** The menu button. */
    method ToggleMenu()
      modifies this
      requires Valid()
      ensures Valid()
      ensures isOpen == !old(isOpen)
      ensures isDark == old(isDark) && scrolled == old(scrolled) && storedTheme == old(storedTheme)
    {
      isOpen := !isOpen;
    }

    /** A link in the mobile menu was clicked. */
    method CloseMenu()
      modifies this
      requires Valid()
      ensures Valid()
      ensures !isOpen
      ensures isDark == old(isDark) && scrolled == old(scrolled) && storedTheme == old(storedTheme)
    {
      isOpen := false;
    }
  }

  /**
   * Toggling the theme twice gives back the original theme, and after any
   * toggle the next mount restores the theme the user last chose.
   */
  method ToggleTwice(n: NavbarState, prefersDark: bool)
    modifies n
    requires n.Valid()
    ensures n.Valid() && n.isDark == old(n.isDark)
    ensures n.storedTheme.Some? && InitialDark(n.storedTheme, prefersDark) == n.isDark
  {
    n.ToggleTheme();
    n.ToggleTheme();
    StoredThemeRestored(n.isDark, prefersDark);
  }
}

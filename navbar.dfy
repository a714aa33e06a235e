/** The navigation bar: which links and menus are highlighted for the current
    path, and the state machine of the drop-down menus, the mobile panel and
    the search box. */
module Navbar {
  import opened Wrappers
  import opened Text
  import Search

  datatype MenuKey = Movies | TvShows | People | Kids | More

  datatype NavLink = NavLink(href: string, caption: string)

  datatype NavMenu = NavMenu(key: MenuKey, caption: string, links: seq<NavLink>)

  const NavMenus: seq<NavMenu> := [
    NavMenu(Movies, "Movies", [
      NavLink("/movies/popular", "Popular"),
      NavLink("/movies/now-playing", "Now Playing"),
      NavLink("/movies/upcoming", "Upcoming"),
      NavLink("/movies/top-rated", "Top Rated")]),
    NavMenu(TvShows, "TV Shows", [
      NavLink("/tv/popular", "Popular"),
      NavLink("/tv/airing-today", "Airing Today"),
      NavLink("/tv/on-tv", "On TV"),
      NavLink("/tv/top-rated", "Top Rated")]),
    NavMenu(People, "People", [
      NavLink("/people/popular", "Popular People")]),
    NavMenu(Kids, "Kids Zone", [
      NavLink("/kids/animated", "Animated"),
      NavLink("/kids/cartoons", "Cartoons"),
      NavLink("/kids/family", "Family")]),
    NavMenu(More, "More", [
      NavLink("/countries", "Countries"),
      NavLink("/discussion", "Discussion"),
      NavLink("/leaderboard", "Leaderboard")])
  ]

  /** `pathname || ''`. */
  function CurrentPath(pathname: Option<string>): (path: string)
    ensures pathname.None? ==> path == ""
    ensures pathname.Some? ==> path == pathname.value
  {
    pathname.GetOr("")
  }

  /** `isLinkActive`: the path is the link itself or lies below it. */
  predicate IsLinkActive(currentPath: string, href: string) {
    currentPath == href || StartsWith(currentPath, href + "/")
  }

  /** A link is active exactly when the path is the link, or the link followed
      by a `/` and anything; a path that merely shares a prefix is not. */
  lemma LinkActiveIff(currentPath: string, href: string)
    ensures IsLinkActive(currentPath, href) <==>
      currentPath == href || exists rest :: currentPath == href + "/" + rest
  {
    if StartsWith(currentPath, href + "/") {
      var rest := currentPath[|href| + 1..];
      assert currentPath == currentPath[..|href| + 1] + rest;
    }
    forall rest | currentPath == href + "/" + rest ensures StartsWith(currentPath, href + "/") {
      assert currentPath[..|href| + 1] == href + "/";
    }
  }

  /** An active link is a prefix of the path ending at a segment boundary. */
  lemma ActiveLinkAtBoundary(currentPath: string, href: string)
    requires IsLinkActive(currentPath, href)
    ensures StartsWith(currentPath, href)
    ensures |currentPath| == |href| || currentPath[|href|] == '/'
  {
    if currentPath != href {
      assert currentPath[..|href|] == (href + "/")[..|href|];
      assert currentPath[|href|] == (href + "/")[|href|];
    }
  }

  /** `/movies/popularity` does not light up `/movies/popular`, while
      `/movies/popular/2` does. */
  lemma PrefixIsNotEnough()
    ensures !IsLinkActive("/movies/popularity", "/movies/popular")
    ensures IsLinkActive("/movies/popular/2", "/movies/popular")
  {
    assert "/movies/popularity"[15] == 'i';
    assert "/movies/popular/2"[..16] == "/movies/popular/";
  }

  /** Without a pathname nothing is active, for every non-empty link. */
  lemma NoPathNothingActive(href: string)
    requires href != ""
    ensures !IsLinkActive(CurrentPath(None), href)
  {
  }

  /** `menu.links.some((link) => isLinkActive(link.href))`. */
  function AnyLinkActive(links: seq<NavLink>, currentPath: string): (b: bool)
    ensures b <==> exists i :: 0 <= i < |links| && IsLinkActive(currentPath, links[i].href)
  {
    if links == [] then false
    else IsLinkActive(currentPath, links[0].href) || AnyLinkActive(links[1..], currentPath)
  }

  /** `isMenuActive`. */
  function IsMenuActive(menu: NavMenu, currentPath: string): (b: bool)
    ensures b <==> exists i :: 0 <= i < |menu.links| && IsLinkActive(currentPath, menu.links[i].href)
  {
    AnyLinkActive(menu.links, currentPath)
  }

  /** On a page below `/tv/popular` the TV menu is highlighted. */
  lemma TvMenuActiveBelowItsLink()
    ensures IsMenuActive(NavMenus[1], "/tv/popular/page-2")
  {
    assert IsLinkActive("/tv/popular/page-2", NavMenus[1].links[0].href) by {
      assert "/tv/popular/page-2"[..12] == "/tv/popular/";
    }
  }

  /** The bar's state. `openMenu` holds at most one menu key. */
  class NavbarState {
    var openMenu: Option<MenuKey>
    var query: string
    var mobilePanelOpen: bool
    var pathname: Option<string>

    constructor (pathname: Option<string>)
      ensures openMenu.None? && query == "" && !mobilePanelOpen && this.pathname == pathname
    {
      openMenu := None;
      query := "";
      mobilePanelOpen := false;
      this.pathname := pathname;
    }

    function IsOpen(key: MenuKey): bool
      reads this
    {
      openMenu == Some(key)
    }

    /** A menu button, on the desktop bar or in the mobile panel: close the
      menu if it is the open one, otherwise open it instead of any other. */
    method ClickMenu(key: MenuKey)
      modifies this
      ensures openMenu == if old(openMenu) == Some(key) then None else Some(key)
      ensures forall k :: k != key ==> !IsOpen(k)
      ensures query == old(query) && mobilePanelOpen == old(mobilePanelOpen) && pathname == old(pathname)
    {
      var isOpen := openMenu == Some(key);
      openMenu := if isOpen then None else Some(key);
    }

    /** Close the open menu and the mobile panel. */
    method CloseAll()
      modifies this
      ensures openMenu.None? && !mobilePanelOpen
      ensures query == old(query) && pathname == old(pathname)
    {
      openMenu := None;
      mobilePanelOpen := false;
    }

    /** A navigation: the `[pathname]` effect runs, closing the menu and the
      panel, only when the pathname actually changes. */
    method PathnameChanged(path: Option<string>)
      modifies this
      ensures pathname == path && query == old(query)
      ensures path != old(pathname) ==> openMenu.None? && !mobilePanelOpen
      ensures path == old(pathname) ==> openMenu == old(openMenu) && mobilePanelOpen == old(mobilePanelOpen)
    {
      if path != pathname {
        pathname := path;
        CloseAll();
      }
    }

    /** `handleEsc`: only the Escape key closes everything. */
    method KeyDown(key: string)
      modifies this
      ensures key == "Escape" ==> openMenu.None? && !mobilePanelOpen
      ensures key != "Escape" ==> openMenu == old(openMenu) && mobilePanelOpen == old(mobilePanelOpen)
      ensures query == old(query) && pathname == old(pathname)
    {
      if key == "Escape" {
        CloseAll();
      }
    }

    /** `handleClickOutside`: a mouse press outside the mounted bar closes
      everything; one inside, or before the bar is mounted, does nothing. */
    method MouseDown(navMounted: bool, targetInside: bool)
      modifies this
      ensures navMounted && !targetInside ==> openMenu.None? && !mobilePanelOpen
      ensures !(navMounted && !targetInside) ==>
        openMenu == old(openMenu) && mobilePanelOpen == old(mobilePanelOpen)
      ensures query == old(query) && pathname == old(pathname)
    {
      if navMounted && !targetInside {
        CloseAll();
      }
    }

    /** The hamburger button. */
    method ToggleMobilePanel()
      modifies this
      ensures mobilePanelOpen == !old(mobilePanelOpen)
      ensures openMenu == old(openMenu) && query == old(query) && pathname == old(pathname)
    {
      mobilePanelOpen := !mobilePanelOpen;
    }

    /** A link inside a desktop drop-down closes the menu. */
    method ClickMenuLink()
      modifies this
      ensures openMenu.None?
      ensures mobilePanelOpen == old(mobilePanelOpen) && query == old(query) && pathname == old(pathname)
    {
      openMenu := None;
    }

    /** Typing into a search box. */
    method SetQuery(text: string)
      modifies this
      ensures query == text
      ensures openMenu == old(openMenu) && mobilePanelOpen == old(mobilePanelOpen) && pathname == old(pathname)
    {
      query := text;
    }

    /** `handleSearchSubmit`: with only white space typed nothing happens;
      otherwise the search route for the trimmed query is pushed and the menu
      and panel close. */
    method SubmitSearch(encode: string -> string) returns (route: Option<string>)
      modifies this
      ensures route == Search.SearchRoute(old(query), encode)
      ensures route.None? ==> openMenu == old(openMenu) && mobilePanelOpen == old(mobilePanelOpen)
      ensures route.Some? ==> openMenu.None? && !mobilePanelOpen
      ensures query == old(query) && pathname == old(pathname)
    {
      route := Search.SearchRoute(query, encode);
      if route.Some? {
        CloseAll();
      }
    }
  }
}

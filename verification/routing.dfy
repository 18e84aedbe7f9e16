/** The hash-based page router: a registry of page sections by id, the id of
    the current page, and the navigation links that point at pages. Exactly
    one registered section carries the `active` class, the one registered
    under the current id; `NavigateTo` moves that marker, re-marks the links,
    records history, retitles the document, closes the mobile menu and calls
    the page-change hook. */
module Routing {
  import opened Dom

  /** The page the router starts on, and the popstate fallback. */
  const Home: string := "home"
  /** The title of the home page and the fallback of the title table. */
  const DefaultTitle: string := "Your Portfolio"

  /** A `.nav-link` element and its `data-page` attribute (None when absent). */
  datatype NavLink = NavLink(element: Element, target: Option<string>)

  /** A `.page` element and its `id` attribute. */
  datatype PageSection = PageSection(id: string, element: Element)

  /** Everything the router reads or writes: its own fields and the parts of
      the document it touches. `changes` lists, in order, the ids the
      page-change hook was called with. */
  datatype RouterState = RouterState(
    current: string,
    pages: map<string, Element>,
    links: seq<NavLink>,
    active: set<Element>,
    title: string,
    history: seq<HistoryEntry>,
    menu: Option<Element>,
    changes: seq<string>)

  // ---------------------------------------------------------------------------
  // Registry

  function Ids(sections: seq<PageSection>): set<string>
  {
    set i | 0 <= i < |sections| :: sections[i].id
  }

  /** Registers the sections in order on top of `m`; a later section with an
      id already present replaces the earlier entry. */
  function Register(m: map<string, Element>, sections: seq<PageSection>): (r: map<string, Element>)
    ensures r.Keys == m.Keys + Ids(sections)
  {
    if sections == [] then m
    else
      var last := sections[|sections| - 1];
      var before := sections[..|sections| - 1];
      assert Ids(sections) == Ids(before) + {last.id} by {
        forall k | k in Ids(sections) ensures k in Ids(before) + {last.id} {
          var i :| 0 <= i < |sections| && sections[i].id == k;
          if i < |sections| - 1 { assert before[i] == sections[i]; }
        }
        forall k | k in Ids(before) ensures k in Ids(sections) {
          var i :| 0 <= i < |before| && before[i].id == k;
          assert sections[i] == before[i];
        }
      }
      Register(m, before)[last.id := last.element]
  }

  /** A section whose id no later section repeats ends up in the registry. */
  lemma {:induction false} RegisterLastWins(m: map<string, Element>, sections: seq<PageSection>, i: nat)
    requires i < |sections|
    requires forall j :: i < j < |sections| ==> sections[j].id != sections[i].id
    ensures sections[i].id in Register(m, sections)
    ensures Register(m, sections)[sections[i].id] == sections[i].element
  {
    if i < |sections| - 1 {
      var before := sections[..|sections| - 1];
      assert before[i] == sections[i];
      RegisterLastWins(m, before, i);
    }
  }

  /** An id that no section carries keeps its earlier entry. */
  lemma {:induction false} RegisterKeepsOthers(m: map<string, Element>, sections: seq<PageSection>, k: string)
    requires k in m
    requires forall j :: 0 <= j < |sections| ==> sections[j].id != k
    ensures k in Register(m, sections) && Register(m, sections)[k] == m[k]
  {
    if sections != [] {
      RegisterKeepsOthers(m, sections[..|sections| - 1], k);
    }
  }

  /** `addPage`: sets one key of the registry and touches nothing else. */
  function WithPage(s: RouterState, id: string, element: Element): (r: RouterState)
    ensures r.pages.Keys == s.pages.Keys + {id} && r.pages[id] == element
    ensures forall k :: k in s.pages && k != id ==> r.pages[k] == s.pages[k]
    ensures r.current == s.current && r.links == s.links && r.active == s.active
    ensures r.title == s.title && r.history == s.history && r.menu == s.menu && r.changes == s.changes
  {
    s.(pages := s.pages[id := element])
  }

  // ---------------------------------------------------------------------------
  // Navigation links

  function LinkElements(links: seq<NavLink>): set<Element>
  {
    set i | 0 <= i < |links| :: links[i].element
  }

  /** `querySelectorAll` never lists an element twice. */
  ghost predicate DistinctLinks(links: seq<NavLink>)
  {
    forall i, j :: 0 <= i < j < |links| ==> links[i].element != links[j].element
  }

  /** `classList.toggle('active', target === p)` on one link. */
  function Mark(active: set<Element>, link: NavLink, p: string): set<Element>
  {
    if link.target == Some(p) then active + {link.element} else active - {link.element}
  }

  /** The links toggled one after the other, in list order. Afterwards a link
      is active exactly when it targets `p`; no other element changes. */
  function MarkLinks(active: set<Element>, links: seq<NavLink>, p: string): (r: set<Element>)
    requires DistinctLinks(links)
    ensures forall i :: 0 <= i < |links| ==> (links[i].element in r <==> links[i].target == Some(p))
    ensures forall e :: e !in LinkElements(links) ==> (e in r <==> e in active)
  {
    if links == [] then active
    else
      var before := links[..|links| - 1];
      var last := links[|links| - 1];
      assert forall i :: 0 <= i < |before| ==> before[i] == links[i];
      assert LinkElements(links) == LinkElements(before) + {last.element};
      Mark(MarkLinks(active, before, p), last, p)
  }

  // ---------------------------------------------------------------------------
  // Title, menu, history

  /** The title table with its fallback. */
  function PageTitle(pageId: string): (title: string)
    ensures title == DefaultTitle <==> pageId !in {"personal", "class", "other"}
    ensures |DefaultTitle| <= |title| && title[|title| - |DefaultTitle|..] == DefaultTitle
  {
    match pageId
    case "home" => "Your Portfolio"
    case "personal" => "Personal Projects - Your Portfolio"
    case "class" => "Class Projects - Your Portfolio"
    case "other" => "Other Work - Your Portfolio"
    case _ => "Your Portfolio"
  }

  /** `closeMobileMenu`: the menu, when there is one, loses `active`. */
  function CloseMenu(active: set<Element>, menu: Option<Element>): set<Element>
  {
    if menu.Some? then active - {menu.value} else active
  }

  /** The entry `pushState({page: p}, '', '#' + p)` records. */
  function PageEntry(p: string): HistoryEntry
  {
    HistoryEntry(Some(p), "#" + p)
  }

  /** `replaceState`: the current entry is replaced, the length kept. */
  function ReplaceTop(history: seq<HistoryEntry>, entry: HistoryEntry): (r: seq<HistoryEntry>)
    requires |history| > 0
    ensures |r| == |history| && r[|r| - 1] == entry
    ensures r[..|r| - 1] == history[..|history| - 1]
  {
    history[|history| - 1 := entry]
  }

  /** The page a popstate event navigates to: the entry's page, or home when
      the entry has none (JavaScript's `||` also sends an empty id home). */
  function PopTarget(page: Option<string>): (p: string)
    ensures page.None? || page == Some("") ==> p == Home
    ensures p == Home || page == Some(p)
    ensures page.Some? && page.value != "" ==> p == page.value
  {
    if page.Some? && page.value != "" then page.value else Home
  }

  // ---------------------------------------------------------------------------
  // navigateTo

  /** `navigateTo(p, push)` on a router state: either nothing changes or
      `p` becomes current; the registry, the links and the menu are never
      changed, and at most one history entry is added. The lemmas below
      state each effect. */
  function Navigate(s: RouterState, p: string, push: bool): (r: RouterState)
    requires DistinctLinks(s.links)
    ensures r == s || r.current == p
    ensures r.pages == s.pages && r.links == s.links && r.menu == s.menu
    ensures r.history == s.history || r.history == s.history + [PageEntry(p)]
  {
    if p !in s.pages || p == s.current then s
    else
      var hidden := if s.current in s.pages then s.active - {s.pages[s.current]} else s.active;
      var shown := hidden + {s.pages[p]};
      s.(current := p,
         active := CloseMenu(MarkLinks(shown, s.links, p), s.menu),
         history := if push then s.history + [PageEntry(p)] else s.history,
         title := PageTitle(p),
         changes := s.changes + [p])
  }

  /** Page sections, navigation links and the menu are different elements. */
  ghost predicate Separate(s: RouterState)
  {
    && DistinctLinks(s.links)
    && s.pages.Values !! LinkElements(s.links)
    && (s.menu.Some? ==> s.menu.value !in s.pages.Values && s.menu.value !in LinkElements(s.links))
  }

  /** Exactly one registered section is active, the current page's. */
  ghost predicate OneActive(s: RouterState)
  {
    s.current in s.pages && s.pages.Values * s.active == {s.pages[s.current]}
  }

  /** Unknown ids and the current id are rejected: nothing changes. */
  lemma NavigateRejects(s: RouterState, p: string, push: bool)
    requires DistinctLinks(s.links)
    requires p !in s.pages || p == s.current
    ensures Navigate(s, p, push) == s
  {
  }

  /** Repeating a navigation changes nothing more, in particular pushes no
      second history entry. */
  lemma NavigateIdempotent(s: RouterState, p: string, push: bool, push': bool)
    requires DistinctLinks(s.links)
    ensures Navigate(Navigate(s, p, push), p, push') == Navigate(s, p, push)
  {
  }

  /** What an accepted navigation does. */
  lemma NavigateAccepts(s: RouterState, p: string, push: bool)
    requires Separate(s)
    requires p in s.pages && p != s.current
    ensures var r := Navigate(s, p, push);
      && r.current == p
      && r.pages == s.pages && r.links == s.links && r.menu == s.menu
      && s.pages[p] in r.active
      && (s.current in s.pages && s.pages[s.current] != s.pages[p] ==> s.pages[s.current] !in r.active)
      && (forall i :: 0 <= i < |s.links| ==> (s.links[i].element in r.active <==> s.links[i].target == Some(p)))
      && (s.menu.Some? ==> s.menu.value !in r.active)
      && r.title == PageTitle(p)
      && r.history == (if push then s.history + [PageEntry(p)] else s.history)
      && r.changes == s.changes + [p]
  {
    var r := Navigate(s, p, push);
    assert s.pages[p] in s.pages.Values;
    if s.current in s.pages {
      assert s.pages[s.current] in s.pages.Values;
    }
  }

  /** An accepted navigation leaves the flag of every other section alone. */
  lemma NavigateKeepsOtherSections(s: RouterState, p: string, push: bool, k: string)
    requires Separate(s)
    requires p in s.pages
    requires k in s.pages && s.pages[k] != s.pages[p]
    requires s.current in s.pages ==> s.pages[k] != s.pages[s.current]
    ensures s.pages[k] in Navigate(s, p, push).active <==> s.pages[k] in s.active
  {
    assert s.pages[k] in s.pages.Values;
  }

  /** Navigation keeps exactly one section active, the current page's. */
  lemma NavigatePreservesOneActive(s: RouterState, p: string, push: bool)
    requires Separate(s) && OneActive(s)
    ensures OneActive(Navigate(s, p, push))
  {
    if p in s.pages && p != s.current {
      var r := Navigate(s, p, push);
      var c, n := s.pages[s.current], s.pages[p];
      forall e | e in s.pages.Values ensures e in r.active <==> e == n {
        assert e in s.active ==> e in s.pages.Values * s.active;
      }
      assert n in s.pages.Values;
      assert r.pages.Values * r.active == {n};
    }
  }

  /** Going back or forward never adds a history entry. */
  lemma PopstateNeverPushes(s: RouterState, page: Option<string>)
    requires DistinctLinks(s.links)
    ensures Navigate(s, PopTarget(page), false).history == s.history
    ensures page.None? ==> Navigate(s, PopTarget(page), false) == Navigate(s, Home, false)
  {
  }

  /** `addPage` touches no flag and no history, and keeps the invariant when
      the new element is flagged consistently with it. */
  lemma AddPagePreservesOneActive(s: RouterState, id: string, element: Element)
    requires OneActive(s)
    requires id != s.current
    requires element in s.active <==> element == s.pages[s.current]
    ensures OneActive(WithPage(s, id, element))
  {
    var r := WithPage(s, id, element);
    var c := s.pages[s.current];
    forall e | e in r.pages.Values ensures e in r.active <==> e == c {
      var k :| k in r.pages && r.pages[k] == e;
      if k != id {
        assert e in s.pages.Values;
        assert e in s.active ==> e in s.pages.Values * s.active;
      }
    }
    assert c == r.pages[r.current] && c in r.pages.Values;
  }

  /** `addPage` on the current id, with an element not carrying `active`,
      breaks the invariant whenever the replaced section is registered under
      no other id: no registered section is active any more. */
  lemma AddPageOnCurrentBreaksOneActive(s: RouterState, element: Element)
    requires OneActive(s)
    requires element !in s.active
    requires forall k :: k in s.pages && k != s.current ==> s.pages[k] != s.pages[s.current]
    ensures WithPage(s, s.current, element).pages.Values * s.active == {}
    ensures !OneActive(WithPage(s, s.current, element))
  {
    var r := WithPage(s, s.current, element);
    var c := s.pages[s.current];
    forall e | e in r.pages.Values ensures e !in s.active {
      var k :| k in r.pages && r.pages[k] == e;
      if k != s.current {
        assert e in s.pages.Values;
        assert e in s.active ==> e in s.pages.Values * s.active;
      }
    }
  }

  /** When the `.nav-menu` element is the section being navigated to, closing
      the menu takes `active` away from it again, so the new current page's
      section is not active. */
  lemma MenuOnTargetBreaksOneActive(s: RouterState, p: string, push: bool)
    requires DistinctLinks(s.links)
    requires p in s.pages && p != s.current
    requires s.menu == Some(s.pages[p])
    ensures var r := Navigate(s, p, push);
      r.current == p && s.pages[p] !in r.active && !OneActive(r)
  {
    var r := Navigate(s, p, push);
    assert s.pages[p] !in r.active;
  }

  /** `addPage` on the current id replaces the current section in the
      registry without touching any flag: afterwards no registered section
      is active, and navigating to that id is rejected as a no-op. */
  lemma AddPageOnCurrentLeavesNoneActive()
    ensures var s := RouterState(Home, map[Home := 1], [], {1}, DefaultTitle, [], None, []);
      var t := WithPage(s, Home, 2);
      && OneActive(s) && !OneActive(t)
      && Navigate(t, Home, true) == t
  {
    var s := RouterState(Home, map[Home := 1], [], {1}, DefaultTitle, [], None, []);
    var t := WithPage(s, Home, 2);
    assert s.pages.Values == {1};
    assert t.pages.Values == {2};
  }

  /** When the `.nav-menu` element is also a page section, closing the menu
      removes `active` from the section just shown: no section stays active. */
  lemma MenuOnSectionLeavesNoneActive()
    ensures var s := RouterState(Home, map[Home := 1]["personal" := 2], [], {1}, DefaultTitle, [], Some(2), []);
      && OneActive(s) && !OneActive(Navigate(s, "personal", true))
  {
    var s := RouterState(Home, map[Home := 1]["personal" := 2], [], {1}, DefaultTitle, [], Some(2), []);
    assert s.pages[Home] == 1 && 1 in s.pages.Values;
    var r := Navigate(s, "personal", true);
    assert r.active == {};
  }

  /** A page added at run time can be navigated to and becomes the active one. */
  lemma AddThenNavigate(s: RouterState, id: string, element: Element, push: bool)
    requires Separate(WithPage(s, id, element))
    requires id != s.current
    ensures var r := Navigate(WithPage(s, id, element), id, push);
      r.current == id && r.pages[id] == element && element in r.active
  {
    NavigateAccepts(WithPage(s, id, element), id, push);
  }

  // ---------------------------------------------------------------------------
  // The router object

  class Router {
    var currentPage: string
    var pages: map<string, Element>
    const navLinks: seq<NavLink>
    const dom: Document
    /** The arguments of the page-change hook's calls, oldest first. */
    var changes: seq<string>

    function State(): RouterState
      reads this, dom
    {
      RouterState(currentPage, pages, navLinks, dom.active, dom.title, dom.history, dom.menu, changes)
    }

    /** Builds the registry from the page sections and records the initial
        history entry for the home page. */
    constructor (dom: Document, sections: seq<PageSection>, navLinks: seq<NavLink>)
      requires DistinctLinks(navLinks)
      requires |dom.history| > 0
      modifies dom`history
      ensures this.dom == dom && this.navLinks == navLinks
      ensures currentPage == Home && changes == []
      ensures pages == Register(map[], sections)
      ensures dom.history == ReplaceTop(old(dom.history), PageEntry(Home))
    {
      this.dom := dom;
      this.navLinks := navLinks;
      currentPage := Home;
      pages := map[];
      changes := [];
      new;
      Init(sections);
    }

    method Init(sections: seq<PageSection>)
      requires |dom.history| > 0
      modifies this`pages, dom`history
      ensures pages == Register(old(pages), sections)
      ensures dom.history == ReplaceTop(old(dom.history), PageEntry(currentPage))
    {
      var i := 0;
      while i < |sections|
        invariant 0 <= i <= |sections|
        invariant pages == Register(old(pages), sections[..i])
        invariant dom.history == old(dom.history)
      {
        pages := pages[sections[i].id := sections[i].element];
        i := i + 1;
        assert sections[..i][..i - 1] == sections[..i - 1];
      }
      assert sections[..|sections|] == sections;
      dom.history := dom.history[|dom.history| - 1 := PageEntry(currentPage)];
    }

    method NavigateTo(pageId: string, pushState: bool := true)
      requires DistinctLinks(navLinks)
      modifies this`currentPage, this`changes, dom`active, dom`title, dom`history
      ensures State() == Navigate(old(State()), pageId, pushState)
    {
      if pageId !in pages || pageId == currentPage {
        return;
      }
      if currentPage in pages {
        dom.active := dom.active - {pages[currentPage]};
      }
      dom.active := dom.active + {pages[pageId]};
      UpdateNavigation(pageId);
      if pushState {
        dom.history := dom.history + [PageEntry(pageId)];
      }
      currentPage := pageId;
      UpdatePageTitle(pageId);
      CloseMobileMenu();
      OnPageChange(pageId);
    }

    method UpdateNavigation(activePageId: string)
      requires DistinctLinks(navLinks)
      modifies dom`active
      ensures dom.active == MarkLinks(old(dom.active), navLinks, activePageId)
    {
      var i := 0;
      while i < |navLinks|
        invariant 0 <= i <= |navLinks|
        invariant dom.active == MarkLinks(old(dom.active), navLinks[..i], activePageId)
      {
        var link := navLinks[i];
        if link.target == Some(activePageId) {
          dom.active := dom.active + {link.element};
        } else {
          dom.active := dom.active - {link.element};
        }
        i := i + 1;
        assert navLinks[..i][..i - 1] == navLinks[..i - 1];
      }
      assert navLinks[..|navLinks|] == navLinks;
    }

    method UpdatePageTitle(pageId: string)
      modifies dom`title
      ensures dom.title == PageTitle(pageId)
    {
      dom.title := PageTitle(pageId);
    }

    method CloseMobileMenu()
      modifies dom`active
      ensures dom.active == CloseMenu(old(dom.active), dom.menu)
    {
      if dom.menu.Some? {
        dom.active := dom.active - {dom.menu.value};
      }
    }

    /** The page-change hook. */
    method OnPageChange(pageId: string)
      modifies this`changes
      ensures changes == old(changes) + [pageId]
    {
      changes := changes + [pageId];
    }

    method AddPage(pageId: string, element: Element)
      modifies this`pages
      ensures State() == WithPage(old(State()), pageId, element)
    {
      pages := pages[pageId := element];
    }

    /** The click handler of navigation link `i`: a link without `data-page`
        asks for an id no registry holds, so nothing happens. */
    method OnLinkClick(i: nat)
      requires DistinctLinks(navLinks)
      requires i < |navLinks|
      modifies this`currentPage, this`changes, dom`active, dom`title, dom`history
      ensures State() == if navLinks[i].target.Some?
                         then Navigate(old(State()), navLinks[i].target.value, true)
                         else old(State())
    {
      var target := navLinks[i].target;
      if target.Some? {
        NavigateTo(target.value);
      }
    }

    /** The popstate handler; `page` is the restored entry's page field. */
    method OnPopState(page: Option<string>)
      requires DistinctLinks(navLinks)
      modifies this`currentPage, this`changes, dom`active, dom`title, dom`history
      ensures State() == Navigate(old(State()), PopTarget(page), false)
    {
      NavigateTo(PopTarget(page), false);
    }
  }

  /** A session: home is shown, the user opens the personal page, then
      goes back. */
  method NavigationScenario()
  {
    var dom := new Document({1}, DefaultTitle, [HistoryEntry(None, "")], map[], Some(9));
    var sections := [PageSection(Home, 1), PageSection("personal", 2)];
    var router := new Router(dom, sections, [NavLink(5, Some(Home))]);
    assert router.pages == map[Home := 1, "personal" := 2] by {
      RegisterLastWins(map[], sections, 0);
      RegisterLastWins(map[], sections, 1);
      assert Ids(sections) == {Home, "personal"} by {
        assert sections[0].id == Home && sections[1].id == "personal";
      }
    }
    assert dom.history == [PageEntry(Home)];
    ghost var s0 := router.State();
    assert Separate(s0) by {
      assert s0.pages.Values == {1, 2} by {
        assert s0.pages[Home] == 1 && s0.pages["personal"] == 2;
      }
      forall e | e in LinkElements(s0.links) ensures e == 5 {
        var i :| 0 <= i < |s0.links| && s0.links[i].element == e;
      }
    }

    router.NavigateTo("personal");
    NavigateAccepts(s0, "personal", true);
    assert router.currentPage == "personal" && router.changes == ["personal"];
    assert 2 in dom.active && 1 !in dom.active;
    assert dom.title == "Personal Projects - Your Portfolio";
    assert dom.history == [PageEntry(Home), PageEntry("personal")];

    ghost var s1 := router.State();
    assert s1.pages == s0.pages && s1.links == s0.links && s1.menu == s0.menu;
    assert Separate(s1);
    assert router.State() == s1;
    assert PopTarget(Some(Home)) == Home;
    router.OnPopState(Some(Home));
    NavigateAccepts(s1, Home, false);
    assert router.currentPage == Home && 1 in dom.active && 2 !in dom.active;
    assert dom.history == [PageEntry(Home), PageEntry("personal")];
  }
}

/** The application helpers of the portfolio page: the Alt+digit keyboard
    shortcuts that drive the router, the icon and label tables of project
    links, the element tree `renderProjects` writes into a container, and
    the mobile-menu toggle. */
module Portfolio {
  import opened Dom
  import Routing

  // ---------------------------------------------------------------------------
  // Keyboard shortcuts

  const ShortcutKeys: seq<string> := ["1", "2", "3", "4"]
  const ShortcutPages: seq<string> := ["home", "personal", "class", "other"]

  /** The page a keydown asks the router for: Alt+1 .. Alt+4 name the four
      pages; any other key, or any key without Alt, asks for nothing. */
  function KeyTarget(altKey: bool, key: string): (target: Option<string>)
    ensures target.Some? <==> altKey && key in ShortcutKeys
    ensures forall i :: 0 <= i < |ShortcutKeys| && altKey && key == ShortcutKeys[i]
                        ==> target == Some(ShortcutPages[i])
  {
    if !altKey then None
    else
      match key
      case "1" => Some("home")
      case "2" => Some("personal")
      case "3" => Some("class")
      case "4" => Some("other")
      case _ => None
  }

  /** Every shortcut names a page the router's title table knows: the home
      page, or a page whose title is not the fallback. */
  lemma ShortcutsHaveTitles(altKey: bool, key: string)
    requires KeyTarget(altKey, key).Some?
    ensures var p := KeyTarget(altKey, key).value;
      p == Routing.Home || Routing.PageTitle(p) != Routing.DefaultTitle
  {
    var i :| 0 <= i < |ShortcutKeys| && key == ShortcutKeys[i];
  }

  // ---------------------------------------------------------------------------
  // Link icons and labels

  const LinkKinds: seq<string> := ["demo", "github", "report", "documentation", "pullRequest", "caseStudy"]
  /** The link symbol, also the fallback icon. */
  const LinkGlyph: string := "\U{1F517}"
  const FolderGlyph: string := "\U{1F4C1}"
  const PageGlyph: string := "\U{1F4C4}"
  const FallbackLabel: string := "Link"

  /** The icon table with its fallback: a folder for GitHub, a page for the
      written kinds, the link symbol for everything else. */
  function LinkIcon(kind: string): (icon: string)
    ensures icon == FolderGlyph <==> kind == "github"
    ensures icon == PageGlyph <==> kind in {"report", "documentation", "caseStudy"}
    ensures icon == LinkGlyph <==> kind != "github" && kind !in {"report", "documentation", "caseStudy"}
  {
    match kind
    case "demo" => LinkGlyph
    case "github" => FolderGlyph
    case "report" => PageGlyph
    case "documentation" => PageGlyph
    case "pullRequest" => LinkGlyph
    case "caseStudy" => PageGlyph
    case _ => LinkGlyph
  }

  /** The label table with its fallback: the fallback label is given exactly
      to the kinds the table does not list. */
  function LinkLabel(kind: string): (caption: string)
    ensures caption == FallbackLabel <==> kind !in LinkKinds
  {
    match kind
    case "demo" => "Live Demo"
    case "github" => "GitHub"
    case "report" => "Report"
    case "documentation" => "Documentation"
    case "pullRequest" => "Pull Request"
    case "caseStudy" => "Case Study"
    case _ => FallbackLabel
  }

  /** The listed kinds get pairwise different labels, so a label names its kind. */
  lemma LabelsNameKinds(a: string, b: string)
    requires a in LinkKinds && b in LinkKinds && LinkLabel(a) == LinkLabel(b)
    ensures a == b
  {
  }

  // ---------------------------------------------------------------------------
  // Rendering project cards

  /** A project: title, description, technologies, and its links as the
      (kind, url) entries of the links object, in entry order. */
  datatype Project = Project(title: string, description: string,
                             technologies: seq<string>, links: seq<(string, string)>)

  function TechTag(tech: string): Node
  {
    Elem("span", "tech-tag", None, [Text(tech)])
  }

  function LinkAnchor(link: (string, string)): Node
  {
    Elem("a", "project-link", Some(link.1), [Text(LinkIcon(link.0) + " " + LinkLabel(link.0))])
  }

  function TechTags(techs: seq<string>): seq<Node>
  {
    if techs == [] then [] else [TechTag(techs[0])] + TechTags(techs[1..])
  }

  function LinkAnchors(links: seq<(string, string)>): seq<Node>
  {
    if links == [] then [] else [LinkAnchor(links[0])] + LinkAnchors(links[1..])
  }

  function ProjectCard(p: Project): Node
  {
    Elem("div", "project-card", None, [
      Elem("h3", "", None, [Text(p.title)]),
      Elem("p", "", None, [Text(p.description)]),
      Elem("div", "project-tech", None, TechTags(p.technologies)),
      Elem("div", "project-links", None, LinkAnchors(p.links))])
  }

  /** The markup of `renderProjects`: one card per project, in order. */
  function ProjectCards(projects: seq<Project>): (cards: seq<Node>)
    ensures |cards| == |projects|
    ensures forall i :: 0 <= i < |projects| ==> cards[i] == ProjectCard(projects[i])
  {
    if projects == [] then [] else [ProjectCard(projects[0])] + ProjectCards(projects[1..])
  }

  // ---------------------------------------------------------------------------
  // Reading a rendered tree back

  datatype Selector = ByClass(name: string) | ByTag(tag: string)

  predicate Matches(n: Node, sel: Selector)
  {
    n.Elem? && match sel
               case ByClass(c) => n.cls == c
               case ByTag(t) => n.tag == t
  }

  /** `querySelectorAll` over a forest: the matching elements in document order. */
  function Select(ns: seq<Node>, sel: Selector): seq<Node>
  {
    if ns == [] then [] else SelectIn(ns[0], sel) + Select(ns[1..], sel)
  }

  function SelectIn(n: Node, sel: Selector): seq<Node>
  {
    match n
    case Text(_) => []
    case Elem(_, _, _, children) => Hit(n, sel) + Select(children, sel)
  }

  function Hit(n: Node, sel: Selector): seq<Node>
  {
    if Matches(n, sel) then [n] else []
  }

  /** `textContent`. */
  function TextContent(n: Node): string
  {
    match n
    case Text(t) => t
    case Elem(_, _, _, children) => TextsJoined(children)
  }

  function TextsJoined(ns: seq<Node>): string
  {
    if ns == [] then "" else TextContent(ns[0]) + TextsJoined(ns[1..])
  }

  /** The text content of each node. */
  function Texts(ns: seq<Node>): seq<string>
  {
    if ns == [] then [] else [TextContent(ns[0])] + Texts(ns[1..])
  }

  /** The `href` of each node. */
  function Hrefs(ns: seq<Node>): seq<Option<string>>
  {
    if ns == [] then [] else [if ns[0].Elem? then ns[0].href else None] + Hrefs(ns[1..])
  }

  function Titles(projects: seq<Project>): seq<string>
  {
    if projects == [] then [] else [projects[0].title] + Titles(projects[1..])
  }

  function Urls(links: seq<(string, string)>): seq<Option<string>>
  {
    if links == [] then [] else [Some(links[0].1)] + Urls(links[1..])
  }

  function Captions(links: seq<(string, string)>): seq<string>
  {
    if links == [] then [] else [LinkIcon(links[0].0) + " " + LinkLabel(links[0].0)] + Captions(links[1..])
  }

  lemma {:induction false} SelectAppend(a: seq<Node>, b: seq<Node>, sel: Selector)
    ensures Select(a + b, sel) == Select(a, sel) + Select(b, sel)
  {
    if a != [] {
      assert (a + b)[0] == a[0] && (a + b)[1..] == a[1..] + b;
      SelectAppend(a[1..], b, sel);
      calc {
        Select(a + b, sel);
        SelectIn(a[0], sel) + Select(a[1..] + b, sel);
        SelectIn(a[0], sel) + (Select(a[1..], sel) + Select(b, sel));
        (SelectIn(a[0], sel) + Select(a[1..], sel)) + Select(b, sel);
      }
    } else {
      assert a + b == b;
    }
  }

  /** A selector finds either every technology tag or none. */
  lemma {:induction false} SelectTechTags(techs: seq<string>, sel: Selector)
    ensures Select(TechTags(techs), sel) == if Matches(TechTag(""), sel) then TechTags(techs) else []
  {
    if techs != [] {
      SelectTechTags(techs[1..], sel);
      var tag := TechTag(techs[0]);
      assert Select(tag.children, sel) == [];
      assert Matches(tag, sel) == Matches(TechTag(""), sel);
      assert TechTags(techs) == [tag] + TechTags(techs[1..]);
      assert Select(TechTags(techs), sel) == SelectIn(tag, sel) + Select(TechTags(techs[1..]), sel);
    }
  }

  /** A selector finds either every link anchor or none. */
  lemma {:induction false} SelectLinkAnchors(links: seq<(string, string)>, sel: Selector)
    ensures Select(LinkAnchors(links), sel) == if Matches(LinkAnchor(("", "")), sel) then LinkAnchors(links) else []
  {
    if links != [] {
      SelectLinkAnchors(links[1..], sel);
      var anchor := LinkAnchor(links[0]);
      assert Select(anchor.children, sel) == [];
      assert Matches(anchor, sel) == Matches(LinkAnchor(("", "")), sel);
      assert LinkAnchors(links) == [anchor] + LinkAnchors(links[1..]);
      assert Select(LinkAnchors(links), sel) == SelectIn(anchor, sel) + Select(LinkAnchors(links[1..]), sel);
    }
  }

  lemma {:induction false} TechTagTexts(techs: seq<string>)
    ensures Texts(TechTags(techs)) == techs
  {
    if techs != [] {
      TechTagTexts(techs[1..]);
      var tag := TechTag(techs[0]);
      assert tag.children[1..] == [];
      assert TextContent(tag) == TextsJoined(tag.children);
      assert TextsJoined(tag.children) == TextContent(Text(techs[0])) + TextsJoined([]);
      assert TechTags(techs) == [tag] + TechTags(techs[1..]);
      assert TextContent(tag) == techs[0];
      assert Texts(TechTags(techs)) == [TextContent(tag)] + Texts(TechTags(techs[1..]));
      assert techs == [techs[0]] + techs[1..];
    }
  }

  lemma {:induction false} LinkAnchorContents(links: seq<(string, string)>)
    ensures Texts(LinkAnchors(links)) == Captions(links)
    ensures Hrefs(LinkAnchors(links)) == Urls(links)
  {
    if links != [] {
      LinkAnchorContents(links[1..]);
      var anchor := LinkAnchor(links[0]);
      var caption := LinkIcon(links[0].0) + " " + LinkLabel(links[0].0);
      assert anchor.children[1..] == [];
      assert TextContent(anchor) == TextsJoined(anchor.children);
      assert TextsJoined(anchor.children) == TextContent(Text(caption)) + TextsJoined([]);
      assert LinkAnchors(links) == [anchor] + LinkAnchors(links[1..]);
      assert TextContent(anchor) == caption;
      assert Texts(LinkAnchors(links)) == [TextContent(anchor)] + Texts(LinkAnchors(links[1..]));
      assert Hrefs(LinkAnchors(links)) == [anchor.href] + Hrefs(LinkAnchors(links[1..]));
    }
  }

  /** Selecting in an element with four children, each found in turn. */
  lemma SelectFourChildren(n: Node, sel: Selector)
    requires n.Elem? && |n.children| == 4
    ensures Select([n], sel)
            == Hit(n, sel) + (SelectIn(n.children[0], sel) + (SelectIn(n.children[1], sel)
               + (SelectIn(n.children[2], sel) + SelectIn(n.children[3], sel))))
  {
    var ch := n.children;
    SelectOne(n, sel);
    SelectOne(ch[3], sel);
    assert ch[3..] == [ch[3]];
    assert Select(ch[2..], sel) == SelectIn(ch[2], sel) + Select(ch[3..], sel);
    assert Select(ch[1..], sel) == SelectIn(ch[1], sel) + Select(ch[2..], sel);
    assert Select(ch, sel) == SelectIn(ch[0], sel) + Select(ch[1..], sel);
  }

  lemma SelectOne(n: Node, sel: Selector)
    ensures Select([n], sel) == SelectIn(n, sel)
  {
    assert [n][1..] == [];
    assert Select([n], sel) == SelectIn(n, sel) + Select([], sel);
  }

  /** What a selector finds in one card, in document order. */
  lemma CardSelect(p: Project, sel: Selector)
    ensures var card := ProjectCard(p);
      Select([card], sel)
      == Hit(card, sel) + (Hit(card.children[0], sel) + (Hit(card.children[1], sel)
         + ((Hit(card.children[2], sel) + Select(TechTags(p.technologies), sel))
         + (Hit(card.children[3], sel) + Select(LinkAnchors(p.links), sel)))))
  {
    var card := ProjectCard(p);
    var ch := card.children;
    SelectFourChildren(card, sel);
    TextOnlySelectsNothing(p.title, sel);
    TextOnlySelectsNothing(p.description, sel);
    assert SelectIn(ch[0], sel) == Hit(ch[0], sel);
    assert SelectIn(ch[1], sel) == Hit(ch[1], sel);
  }

  lemma TextOnlySelectsNothing(t: string, sel: Selector)
    ensures Select([Text(t)], sel) == []
  {
    SelectOne(Text(t), sel);
  }

  /** A card holds no card inside it. */
  lemma CardHoldsOneCard(p: Project)
    ensures Select([ProjectCard(p)], ByClass("project-card")) == [ProjectCard(p)]
  {
    CardSelect(p, ByClass("project-card"));
    SelectTechTags(p.technologies, ByClass("project-card"));
    SelectLinkAnchors(p.links, ByClass("project-card"));
  }

  /** A card's technology tags name its technologies, in order. */
  lemma CardTechTags(p: Project)
    ensures Texts(Select([ProjectCard(p)], ByClass("tech-tag"))) == p.technologies
  {
    CardSelect(p, ByClass("tech-tag"));
    SelectTechTags(p.technologies, ByClass("tech-tag"));
    SelectLinkAnchors(p.links, ByClass("tech-tag"));
    assert Select([ProjectCard(p)], ByClass("tech-tag")) == TechTags(p.technologies);
    TechTagTexts(p.technologies);
  }

  /** A card's link anchors carry its links' urls and captions, in order. */
  lemma CardLinks(p: Project)
    ensures Texts(Select([ProjectCard(p)], ByClass("project-link"))) == Captions(p.links)
    ensures Hrefs(Select([ProjectCard(p)], ByClass("project-link"))) == Urls(p.links)
  {
    CardSelect(p, ByClass("project-link"));
    SelectTechTags(p.technologies, ByClass("project-link"));
    SelectLinkAnchors(p.links, ByClass("project-link"));
    assert Select([ProjectCard(p)], ByClass("project-link")) == LinkAnchors(p.links);
    LinkAnchorContents(p.links);
  }

  /** A card's one heading is its project's title. */
  lemma CardTitle(p: Project)
    ensures Texts(Select([ProjectCard(p)], ByTag("h3"))) == [p.title]
  {
    CardSelect(p, ByTag("h3"));
    SelectTechTags(p.technologies, ByTag("h3"));
    SelectLinkAnchors(p.links, ByTag("h3"));
    var h := ProjectCard(p).children[0];
    assert Select([ProjectCard(p)], ByTag("h3")) == [h];
    SingleTextContent(h);
  }

  /** The text of a node holding one text child, as a one-element list. */
  lemma SingleTextContent(h: Node)
    requires h.Elem? && |h.children| == 1 && h.children[0].Text?
    ensures Texts([h]) == [h.children[0].text]
  {
    assert h.children[1..] == [] && [h][1..] == [];
    assert TextsJoined(h.children) == TextContent(h.children[0]) + TextsJoined([]);
    assert TextContent(h) == TextsJoined(h.children) == h.children[0].text;
    assert Texts([h]) == [TextContent(h)] + Texts([]);
  }

  /** The rendered markup holds one project card per project and no other,
      in input order, with the projects' titles in order. */
  lemma {:induction false} RenderedCards(projects: seq<Project>)
    ensures Select(ProjectCards(projects), ByClass("project-card")) == ProjectCards(projects)
    ensures Texts(Select(ProjectCards(projects), ByTag("h3"))) == Titles(projects)
  {
    if projects != [] {
      var cards := ProjectCards(projects);
      assert cards == [ProjectCard(projects[0])] + ProjectCards(projects[1..]);
      RenderedCards(projects[1..]);
      CardHoldsOneCard(projects[0]);
      CardTitle(projects[0]);
      SelectAppend([ProjectCard(projects[0])], ProjectCards(projects[1..]), ByClass("project-card"));
      SelectAppend([ProjectCard(projects[0])], ProjectCards(projects[1..]), ByTag("h3"));
      TextsAppend(Select([ProjectCard(projects[0])], ByTag("h3")), Select(ProjectCards(projects[1..]), ByTag("h3")));
    }
  }

  lemma {:induction false} TextsAppend(a: seq<Node>, b: seq<Node>)
    ensures Texts(a + b) == Texts(a) + Texts(b)
  {
    if a != [] {
      assert (a + b)[0] == a[0] && (a + b)[1..] == a[1..] + b;
      TextsAppend(a[1..], b);
      calc {
        Texts(a + b);
        [TextContent(a[0])] + Texts(a[1..] + b);
        [TextContent(a[0])] + (Texts(a[1..]) + Texts(b));
        ([TextContent(a[0])] + Texts(a[1..])) + Texts(b);
      }
    } else {
      assert a + b == b;
    }
  }

  // ---------------------------------------------------------------------------
  // The mobile menu toggle

  /** `classList.toggle('active')` on one element. */
  function Toggle(active: set<Element>, e: Element): (r: set<Element>)
    ensures e in r <==> e !in active
    ensures forall x :: x != e ==> (x in r <==> x in active)
  {
    if e in active then active - {e} else active + {e}
  }

  /** Two toggles restore the flag. */
  lemma ToggleTwice(active: set<Element>, e: Element)
    ensures Toggle(Toggle(active, e), e) == active
  {
  }

  // ---------------------------------------------------------------------------
  // The application object

  class PortfolioApp {
    /** Whether the page has a `#mobileToggle` button. */
    const hasMobileToggle: bool
    const dom: Document

    constructor (dom: Document, hasMobileToggle: bool)
      ensures this.dom == dom && this.hasMobileToggle == hasMobileToggle
    {
      this.dom := dom;
      this.hasMobileToggle := hasMobileToggle;
    }

    /** A click on the mobile toggle flips the menu's `active` flag; without a
        toggle button no handler exists, and without a menu nothing flips. */
    method OnMobileToggleClick()
      modifies dom`active
      ensures dom.active == if hasMobileToggle && dom.menu.Some?
                            then Toggle(old(dom.active), dom.menu.value)
                            else old(dom.active)
    {
      if hasMobileToggle && dom.menu.Some? {
        var menu := dom.menu.value;
        if menu in dom.active {
          dom.active := dom.active - {menu};
        } else {
          dom.active := dom.active + {menu};
        }
      }
    }

    /** The keydown handler: forwards a shortcut to the router. */
    method OnKeyDown(router: Routing.Router, altKey: bool, key: string)
      requires Routing.DistinctLinks(router.navLinks)
      modifies router`currentPage, router`changes, router.dom`active, router.dom`title, router.dom`history
      ensures router.State() == if KeyTarget(altKey, key).Some?
                                then Routing.Navigate(old(router.State()), KeyTarget(altKey, key).value, true)
                                else old(router.State())
    {
      var target := KeyTarget(altKey, key);
      if target.Some? {
        router.NavigateTo(target.value);
      }
    }

    /** Writes the project cards into the container with the given id; a
        missing container or a missing project list leaves everything as it
        was (an empty list is present, and empties the container). */
    method RenderProjects(containerId: string, projects: Option<seq<Project>>)
      modifies dom`content
      ensures containerId in old(dom.content) && projects.Some?
              ==> dom.content == old(dom.content)[containerId := ProjectCards(projects.value)]
      ensures containerId !in old(dom.content) || projects.None?
              ==> dom.content == old(dom.content)
    {
      if containerId !in dom.content || projects.None? {
        return;
      }
      dom.content := dom.content[containerId := ProjectCards(projects.value)];
    }
  }
}

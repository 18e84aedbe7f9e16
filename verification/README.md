# Portfolio site: router, theme manager and application helpers

This project models the client-side logic of a static portfolio site. The
site has three scripts:

- `js/router.js`, the hash router. It keeps a registry of page sections by
  id and the id of the current page. Navigating moves the `active` class
  from the current section to the new one, re-marks the navigation links,
  pushes or keeps a history entry, retitles the document, closes the mobile
  menu and calls the page-change hook.
- `js/theme.js`, the theme manager. It holds the current theme and a list
  of theme names that can grow. The current theme is mirrored into the root
  element's `data-theme` attribute and into the toggle button's icon.
  Toggling steps through the list cyclically.
- `js/main.js`, the application object. It forwards Alt+1 .. Alt+4 to the
  router and flips the mobile menu. It also renders project cards into
  containers, using an icon table and a label table for project links.

The browser document is reduced to plain state in `Dom.Document`: the set
of elements carrying `active`, the title, the session history, the theme
attribute, the toggle text, and the children of each element that has an
id. Elements are abstract handles. Each script's class is a Dafny class
whose methods change exactly the fields they name. Each router method's new state is
given by a pure function of the old state: `Navigate` of a `RouterState`
snapshot for `navigateTo`, and `Register`, `ReplaceTop`, `MarkLinks`,
`PageTitle` or `CloseMenu` of the fields it changes for the helpers. The
properties of the router are lemmas about those functions. The theme manager keeps `Valid()`: its list is non-empty and
free of duplicates, and the attribute and the icon always agree with the
current theme. The rendered markup is an element
tree, read back with a class/tag selector (`Select`), in the way
`querySelectorAll` would read it.

Five behaviours of the code are worth stating plainly:

- On load the router always replaces the current history entry with
  `{page: 'home'}` and `#home`, whatever fragment the URL carries
  (`js/router.js:39`).
- Sections are registered under their `id` attribute exactly as it is
  (`js/router.js:20`). A section without an id is registered under the
  empty string, and a later section with the same id replaces an earlier
  one (`Register`, `RegisterLastWins`).
- The popstate handler uses `||` (`js/router.js:34`), so an entry whose page
  is the empty string also falls back to `home` (`PopTarget`).
- `addPage` on the current id (`js/router.js:114`) overwrites the registry
  entry and touches no class. This breaks the one-active invariant when the
  new element does not already carry `active` and the replaced one is
  registered under no other id: no registered section is active afterwards
  (`AddPageOnCurrentBreaksOneActive`). Navigating to that id is then rejected
  as the current one (`AddPageOnCurrentLeavesNoneActive`).
- When the `.nav-menu` element is the section being navigated to, closing
  the menu (`js/router.js:74`) removes the `active` it was just given. The
  new current page's section is then not active
  (`MenuOnTargetBreaksOneActive`, `MenuOnSectionLeavesNoneActive`). The
  navigation lemmas therefore assume that page sections, links and the menu
  are different elements.

## Model

| member | source | states |
|---|---|---|
| Routing.Register | js/router.js:17-21 | The registry's ids are exactly the old ids plus the ids of all `.page` sections. |
| Routing.RegisterLastWins | js/router.js:19-20 | For a repeated id, the last section carrying it is the one registered. |
| Routing.RegisterKeepsOthers | js/router.js:19-20 | An id that no section carries keeps its earlier element. |
| Routing.MarkLinks | js/router.js:80-85 | A link is active exactly when its `data-page` equals the page. Elements that are not links keep their flag. |
| Routing.PageTitle | js/router.js:87-95 | The title is the fallback "Your Portfolio" exactly for ids other than personal, class and other. Every title ends with "Your Portfolio". |
| Routing.ReplaceTop | js/router.js:39 | `replaceState` keeps the history length and the earlier entries, and replaces only the last entry. |
| Routing.PopTarget | js/router.js:33-36 | A missing page or an empty page gives `home`. A non-empty page is taken as is. Nothing other than `home` or the entry's own page is ever chosen. |
| Routing.Navigate | js/router.js:42-78 | The state after `navigateTo(p, push)`: either nothing changes or `p` becomes current. The registry, the links and the menu are never changed, and at most the entry for `p` is added to the history. The `Navigate*` lemmas below state each effect. |
| Routing.NavigateRejects | js/router.js:43-45 | An unknown id, or the current id, changes nothing. |
| Routing.NavigateIdempotent | js/router.js:42-45 | Navigating to the same id twice equals navigating once, so no second history entry is pushed. |
| Routing.NavigateAccepts | js/router.js:42-78 | When page sections, links and the menu are different elements, an accepted navigation makes the id current, activates its section and deactivates the old one. Links are active exactly when they target the id. The menu is closed. The id's title is set. One entry `{page: id}`/`#id` is pushed exactly when `pushState` holds. The hook is called once with the id. |
| Routing.NavigateKeepsOtherSections | js/router.js:47-57 | When page sections, links and the menu are different elements, sections other than the old and the new page keep their `active` flag. |
| Routing.NavigatePreservesOneActive | js/router.js:42-78 | If exactly one registered section is active, the current one, this still holds after any navigation, when page sections, links and the menu are different elements. |
| Routing.PopstateNeverPushes | js/router.js:33-36 | Back/forward never adds a history entry. A missing page behaves as navigating to `home`. |
| Routing.WithPage | js/router.js:113-115 | `addPage` maps the id to the element, keeps every other id's element and changes nothing else in the state. `AddPagePreservesOneActive` and `AddThenNavigate` state its effect on navigation. |
| Routing.AddPagePreservesOneActive | js/router.js:113-115 | `addPage` for an id other than the current one keeps the one-active invariant when the new element is flagged consistently with it. |
| Routing.AddPageOnCurrentBreaksOneActive | js/router.js:113-115 | `addPage` on the current id with an element not carrying `active` leaves no registered section active, when the replaced section is registered under no other id. |
| Routing.AddPageOnCurrentLeavesNoneActive | js/router.js:113-115 | On a concrete state, `addPage` on the current id leaves no registered section active, and navigating to that id changes nothing. |
| Routing.MenuOnTargetBreaksOneActive | js/router.js:47-78 | When the menu element is the target section, an accepted navigation makes the page current, but its section does not carry `active`, so the one-active invariant fails. |
| Routing.MenuOnSectionLeavesNoneActive | js/router.js:47-78 | On a concrete state whose menu element is also the target section, an accepted navigation leaves no section active. |
| Routing.AddThenNavigate | js/router.js:113-115 | A page added at run time under an id other than the current one can be navigated to and becomes the current, active page. |
| Routing.Router.constructor | js/router.js:9-15 | The router starts on `home` with the registry of all sections, and the top history entry is replaced by the home entry. |
| Routing.Router.Init | js/router.js:17-40 | The loop registers every section in order, then replaces the top history entry with the current page's. |
| Routing.Router.NavigateTo | js/router.js:42-78 | The router and document state after the call is `Navigate` of the state before. |
| Routing.Router.UpdateNavigation | js/router.js:80-85 | The loop over the links leaves the `active` set equal to `MarkLinks` of the old set. |
| Routing.Router.UpdatePageTitle | js/router.js:87-95 | The document title becomes `PageTitle(pageId)`. |
| Routing.Router.CloseMobileMenu | js/router.js:97-102 | The menu, when present, loses `active`. Nothing else changes. |
| Routing.Router.OnPageChange | js/router.js:104-110 | The hook records its page id, once, after the earlier ones. |
| Routing.Router.AddPage | js/router.js:113-115 | The registry maps the id to the element, overwriting any earlier one. Nothing else changes. |
| Routing.Router.OnLinkClick | js/router.js:24-30 | A link click navigates, with a push, to the link's `data-page`. A link without one changes nothing. |
| Routing.Router.OnPopState | js/router.js:33-36 | Popstate navigates without a push to `PopTarget` of the entry's page. |
| Theming.IndexOf | js/theme.js:33 | `indexOf` gives -1 exactly when the name is absent. Otherwise it gives the first position holding it. |
| Theming.NextTheme | js/theme.js:32-37 | The next theme is always a listed theme. An unlisted current theme moves to the first theme. |
| Theming.WrapIsMod | js/theme.js:34 | `(index + 1) % length`, with index at least -1, is index + 1 or wraps to 0 exactly at the end of the list. |
| Theming.NextThemeAt | js/theme.js:32-37 | In a list without duplicates, toggling moves from position i to i + 1, and from the last position to the first. |
| Theming.DefaultThemesAlternate | js/theme.js:10-11 | With the default list, dark toggles to light and light to dark. |
| Theming.ToggleCycle | js/theme.js:32-37 | k toggles (k up to the list length) move k positions around the list. |
| Theming.ToggleRoundTrip | js/theme.js:32-37 | As many toggles as there are themes return to the starting theme. |
| Theming.WithTheme | js/theme.js:50-53 | After `addTheme` the name is listed. It is appended only when absent, and the old list is kept as a prefix. |
| Theming.WithThemeNoDuplicates | js/theme.js:50-53 | `addTheme` keeps the list free of duplicates, and adding a name twice equals adding it once. |
| Theming.ToggleIcon | js/theme.js:41-45 | The icon is the sun exactly for `light`, and the moon otherwise (dark and unknown themes). |
| Theming.ThemeManager.constructor | js/theme.js:9-24 | The manager starts on dark with the list [dark, light]. It is valid: the list has no duplicates, the attribute is set and the icon is in step. Without a toggle button, its text is untouched. |
| Theming.ThemeManager.SetTheme | js/theme.js:26-30 | The attribute and the current theme both become the theme, and the toggle icon is updated when the button exists. The manager is then valid exactly when its list is non-empty and free of duplicates. |
| Theming.ThemeManager.ToggleTheme | js/theme.js:32-37 | The manager stays valid and the current theme becomes `NextTheme` of the old one. Without a toggle button, its text is untouched. |
| Theming.ThemeManager.UpdateToggleButton | js/theme.js:39-47 | With a toggle button its text is the current theme's icon. Without one, nothing changes. |
| Theming.ThemeManager.AddTheme | js/theme.js:50-59 | The list becomes `WithTheme` of the old list. The current theme and validity, including the absence of duplicates, are kept. |
| Portfolio.KeyTarget | js/main.js:49-68 | A key asks for a page exactly when Alt is held and the key is 1-4. The i-th digit names the i-th page. |
| Portfolio.ShortcutsHaveTitles | js/main.js:52-65 | Every shortcut target is `home` or a page with its own title in the router's table. |
| Portfolio.LinkIcon | js/main.js:214-224 | The folder icon is for github exactly. The page icon is for report, documentation and caseStudy exactly. The link icon is for every other kind. |
| Portfolio.LinkLabel | js/main.js:226-236 | The fallback "Link" is given exactly to the kinds the table does not list. |
| Portfolio.LabelsNameKinds | js/main.js:226-236 | The six listed kinds have pairwise different labels. |
| Portfolio.ProjectCards | js/main.js:194-211 | One card per project, in order, each the card of its project. |
| Portfolio.TechTagTexts | js/main.js:199-201 | The technology tags read back as the project's technologies, in order. |
| Portfolio.LinkAnchorContents | js/main.js:204-208 | The link anchors read back as the links' urls, and as icon-plus-label captions, in entry order. |
| Portfolio.CardHoldsOneCard | js/main.js:195 | A rendered card contains exactly one `.project-card`, itself. |
| Portfolio.CardTechTags | js/main.js:198-202 | Selecting `.tech-tag` in a card yields the project's technologies. |
| Portfolio.CardLinks | js/main.js:203-209 | Selecting `.project-link` in a card yields its links' captions and urls. |
| Portfolio.CardTitle | js/main.js:196 | The card's only `h3` holds the project title. |
| Portfolio.RenderedCards | js/main.js:194-211 | Selecting `.project-card` in the rendered markup yields exactly the cards, and the `h3` texts are the titles in project order. |
| Portfolio.Toggle | js/main.js:35 | `classList.toggle` flips membership of the one element and leaves all others alone. |
| Portfolio.ToggleTwice | js/main.js:35 | Two clicks on the mobile toggle restore the menu's state. |
| Portfolio.PortfolioApp.constructor | js/main.js:9-14 | The application is built over the given document, and it records whether the mobile toggle button exists. |
| Portfolio.PortfolioApp.OnMobileToggleClick | js/main.js:32-37 | With a toggle button and a menu, a click flips the menu's flag. Otherwise nothing changes. |
| Portfolio.PortfolioApp.OnKeyDown | js/main.js:49-68 | A shortcut navigates the router, with a push, to its page. Any other key leaves the router and document unchanged. |
| Portfolio.PortfolioApp.RenderProjects | js/main.js:190-212 | A present container with a present list gets exactly the cards as its content. A missing container or list changes nothing. |

## Left out

- DOM querying and listener registration (`querySelectorAll`, `getElementById`, `addEventListener`) are left out. The elements found are inputs: the page sections, the links with their `data-page`, the menu, and whether the toggle buttons exist. Each handler is a method.
- `preventDefault` and the browser's default link behaviour are left out because they are host behaviour.
- Host-side history movement on back/forward is left out. Only the popstate handler, given the restored entry's page, is modelled.
- `console.log` in `onPageChange` is modelled as a log of the ids the hook received.
- The start-up `console.log` of the application is dropped, because it only writes to the console.
- Routing.Navigate: the guards `if (currentPageElement)` and `if (newPageElement)` are not modelled, because an `Element` handle cannot be null. In the source, `addPage(id, null)` followed by `navigateTo(id)` leaves no section active. That sequence cannot be represented here.
- The CSS `<style>` element that `addTheme` injects is left out, because it only styles the page. `addTheme`'s `variables` argument is dropped with it.
- Closing the menu on a click outside it, and smooth scrolling of `#` anchors, are left out. Both depend on the click target's position in the document and on scrolling, which the model does not represent.
- The static project catalogue and `loadProjects` are left out. They are constant data and four calls of `renderProjects`.
- Portfolio.RenderProjects: the markup is modelled as the element tree it parses to. Whitespace text nodes, HTML escaping of the inserted strings and the blank space around each anchor's caption are not modelled.
- Portfolio.LinkAnchors: entries are taken in the links object's own order. JavaScript lists integer-like keys first, and that reordering is not modelled.
- Portfolio.LinkLabel: the contract states which kinds get the fallback label, and `LabelsNameKinds` states that the listed labels differ. The individual caption texts are fixed only by the function's table.
- Object-literal lookups do not model keys inherited from `Object.prototype`, such as `constructor`. These are the page titles (`js/router.js:88-94`), the theme icons (`js/theme.js:41-45`), and the link icons and labels (`js/main.js:215-234`). For such keys JavaScript would return an inherited value instead of the fallback.
- The timing of script start-up (`DOMContentLoaded`, global instances) is left out. Each class is constructed over a given document.

/** The parts of the browser document that the portfolio scripts read and
    write, reduced to plain state: which elements carry the `active` class,
    the document title, the session history, the `data-theme` attribute of
    the root element, the text of the theme toggle button, and the children
    rendered into the containers that have an id. */
module Dom {

  datatype Option<+T> = None | Some(value: T)

  /** Identity of a DOM element (a page section, a navigation link, the menu). */
  type Element = nat

  /** One entry of the session history: the state object's `page` field
      (None when the entry carries no page) and the location fragment. */
  datatype HistoryEntry = HistoryEntry(page: Option<string>, fragment: string)

  /** The element tree that a container's `innerHTML` parses to. An element
      has a tag, a class attribute (empty when absent), an optional `href`
      and its children. */
  datatype Node =
    | Elem(tag: string, cls: string, href: Option<string>, children: seq<Node>)
    | Text(text: string)

  class Document {
    /** Elements whose class list holds `active`. */
    var active: set<Element>
    /** `document.title`. */
    var title: string
    /** The session history entries this code pushes or replaces, oldest
        first. The host's back/forward position, and the forward entries a
        push drops, are not represented. */
    var history: seq<HistoryEntry>
    /** The `data-theme` attribute of the root element (None while unset). */
    var dataTheme: Option<string>
    /** The text content of the theme toggle button. */
    var toggleText: string
    /** Children of every element that has an id, by id: an id is a key
        exactly when `getElementById` finds an element for it. */
    var content: map<string, seq<Node>>
    /** The `.nav-menu` element, when the page has one. */
    const menu: Option<Element>

    constructor (active: set<Element>, title: string, history: seq<HistoryEntry>,
                 content: map<string, seq<Node>>, menu: Option<Element>)
      ensures this.active == active && this.title == title && this.history == history
      ensures this.content == content && this.menu == menu
      ensures dataTheme == None && toggleText == ""
    {
      this.active := active;
      this.title := title;
      this.history := history;
      this.dataTheme := None;
      this.toggleText := "";
      this.content := content;
      this.menu := menu;
    }
  }
}

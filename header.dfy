/**
 * `createHeader`: the header element tree built from the page title and
 * the header section of the configuration, and the menu button's click
 * handler, which toggles one class on the button and one on the wrapper.
 */
module Header {
  import opened Wrappers
  import opened Dom
  import opened Settings

  const LogoAltPrefix := "Логотип "
  const ButtonActiveClass := "menu-button-active"
  const WrapperActiveClass := "header-active"

  function LogoImage(title: string, logo: string): Element {
    El("img", ["logo"], map["src" := Text(logo), "alt" := Text(LogoAltPrefix + title)])
  }

  function NavLink(item: MenuItem): Element {
    El("a", ["menu-link"], map["href" := Text(item.link), "textContent" := Text(item.title)])
  }

  /** `menu.map(...)`: one link per entry. */
  function NavLinks(menu: seq<MenuItem>): seq<Element> {
    seq(|menu|, i requires 0 <= i < |menu| => NavLink(menu[i]))
  }

  function Navbar(menu: seq<MenuItem>): Element {
    Append(El("nav", ["menu-list"], map[]), NavLinks(menu))
  }

  function MenuButton(): Element {
    El("button", ["menu-button"], map[])
  }

  /** A social link: an anchor around an image, its `href` assigned after the image is appended. */
  function SocialLink(item: SocialItem): Element {
    var icon := El("img", [], map["src" := Text(item.image), "alt" := Text(item.title)]);
    var link := Append(El("a", ["social-link"], map[]), [icon]);
    link.(props := link.props["href" := Text(item.link)])
  }

  /** `social.map(...)`: one link per entry. */
  function SocialLinks(social: seq<SocialItem>): seq<Element> {
    seq(|social|, i requires 0 <= i < |social| => SocialLink(social[i]))
  }

  function SocialBlock(social: seq<SocialItem>): Element {
    Append(El("div", ["social"], map[]), SocialLinks(social))
  }

  /** The header wrapper as built, before any of its parts is appended. */
  function WrapperShell(): Element {
    El("div", ["header"], map[])
  }

  /** The wrapper: logo, navigation and social block, each only when configured. */
  function Wrapper(title: string, h: HeaderOptions): Element {
    Append(WrapperShell(), LogoPart(title, h) + NavPart(h) + SocialPart(h))
  }

  function LogoPart(title: string, h: HeaderOptions): seq<Element> {
    if Present(h.logo) then [LogoImage(title, h.logo.value)] else []
  }

  function NavPart(h: HeaderOptions): seq<Element> {
    if h.menu.Some? then [Navbar(h.menu.value)] else []
  }

  function SocialPart(h: HeaderOptions): seq<Element> {
    if h.social.Some? then [SocialBlock(h.social.value)] else []
  }

  /** `createHeader({title, header})`: header, then container, then the menu button (with a menu) and the wrapper. */
  function CreateHeader(title: string, h: HeaderOptions): Element {
    Append(Build("header", None, None), [HeaderContainer(title, h)])
  }

  function HeaderContainer(title: string, h: HeaderOptions): Element {
    Append(El("div", ["container"], map[]), ButtonPart(h) + [Wrapper(title, h)])
  }

  function ButtonPart(h: HeaderOptions): seq<Element> {
    if h.menu.Some? then [MenuButton()] else []
  }

  /**
   * The header holds a single container; the container holds the menu button
   * exactly when a menu is configured, and then before the wrapper, which is
   * always its last child.
   */
  lemma HeaderLayout(title: string, h: HeaderOptions)
    ensures var r := CreateHeader(title, h);
      && r.tag == "header" && r.classes == [] && r.props == map[] && |r.children| == 1
      && var container := r.children[0];
      && container.tag == "div" && container.classes == ["container"]
      && |container.children| == Count(h.menu.Some?) + 1
      && (h.menu.Some? ==> container.children[0] == MenuButton())
      && container.children[|container.children| - 1] == Wrapper(title, h)
  {
  }

  /**
   * The wrapper's children are the logo, the navigation and the social
   * block, in that order, each present exactly when its field is; the logo
   * shows the configured image with the alt text "Логотип " + title.
   */
  lemma WrapperLayout(title: string, h: HeaderOptions)
    ensures var w := Wrapper(title, h);
      var n := |w.children|;
      var navAt := Count(Present(h.logo));
      && w.tag == "div" && w.classes == ["header"]
      && n == Count(Present(h.logo)) + Count(h.menu.Some?) + Count(h.social.Some?)
      && (Present(h.logo) ==>
            && w.children[0].tag == "img" && w.children[0].classes == ["logo"]
            && w.children[0].props["src"] == Text(h.logo.value)
            && w.children[0].props["alt"] == Text("Логотип " + title))
      && (h.menu.Some? ==>
            && w.children[navAt].tag == "nav" && w.children[navAt].classes == ["menu-list"]
            && w.children[navAt].children == NavLinks(h.menu.value))
      && (h.social.Some? ==>
            && w.children[n - 1].tag == "div" && w.children[n - 1].classes == ["social"]
            && w.children[n - 1].children == SocialLinks(h.social.value))
  {
  }

  lemma {:induction false} SelectNavLinks(menu: seq<MenuItem>, cls: string)
    ensures SelectAll(NavLinks(menu), cls) == if cls == "menu-link" then NavLinks(menu) else []
    decreases |menu|
  {
    var links := NavLinks(menu);
    if menu != [] {
      assert links[1..] == NavLinks(menu[1..]);
      assert links == [links[0]] + links[1..];
      assert Select(links[0], cls) == if cls == "menu-link" then [links[0]] else [];
      SelectNavLinks(menu[1..], cls);
    }
  }

  lemma {:induction false} SelectSocialLinks(social: seq<SocialItem>, cls: string)
    ensures SelectAll(SocialLinks(social), cls) == if cls == "social-link" then SocialLinks(social) else []
    decreases |social|
  {
    var links := SocialLinks(social);
    if social != [] {
      assert links[1..] == SocialLinks(social[1..]);
      assert links == [links[0]] + links[1..];
      var icon := links[0].children[0];
      assert Select(icon, cls) == [];
      assert SelectAll(links[0].children, cls) == [];
      assert Select(links[0], cls) == if cls == "social-link" then [links[0]] else [];
      SelectSocialLinks(social[1..], cls);
    }
  }

  lemma NavbarQuery(menu: seq<MenuItem>, cls: string)
    requires cls != "menu-list"
    ensures SelectAll([Navbar(menu)], cls) == if cls == "menu-link" then NavLinks(menu) else []
  {
    var nav := Navbar(menu);
    SelectNavLinks(menu, cls);
    assert nav.classes == ["menu-list"] && nav.children == NavLinks(menu);
    SelectUnmarked(nav, cls);
    SelectSingle(nav, cls);
  }

  lemma SocialBlockQuery(social: seq<SocialItem>, cls: string)
    requires cls != "social"
    ensures SelectAll([SocialBlock(social)], cls) == if cls == "social-link" then SocialLinks(social) else []
  {
    var block := SocialBlock(social);
    SelectSocialLinks(social, cls);
    assert block.classes == ["social"] && block.children == SocialLinks(social);
    SelectUnmarked(block, cls);
    SelectSingle(block, cls);
  }

  lemma WrapperQuery(title: string, h: HeaderOptions, cls: string)
    requires cls == "menu-button" || cls == "menu-link" || cls == "social-link"
    ensures Select(Wrapper(title, h), cls) ==
      (if cls == "menu-link" && h.menu.Some? then NavLinks(h.menu.value) else [])
      + (if cls == "social-link" && h.social.Some? then SocialLinks(h.social.value) else [])
  {
    LogoPartQuery(title, h, cls);
    NavPartQuery(h, cls);
    SocialPartQuery(h, cls);
    SelectAllConcat(LogoPart(title, h), NavPart(h), cls);
    SelectAllConcat(LogoPart(title, h) + NavPart(h), SocialPart(h), cls);
    SelectThrough(WrapperShell(), LogoPart(title, h) + NavPart(h) + SocialPart(h), cls);
  }

  lemma LogoPartQuery(title: string, h: HeaderOptions, cls: string)
    requires cls == "menu-button" || cls == "menu-link" || cls == "social-link"
    ensures SelectAll(LogoPart(title, h), cls) == []
  {
    if Present(h.logo) {
      SelectLeavesWithout([LogoImage(title, h.logo.value)], cls);
    }
  }

  lemma NavPartQuery(h: HeaderOptions, cls: string)
    requires cls == "menu-button" || cls == "menu-link" || cls == "social-link"
    ensures SelectAll(NavPart(h), cls) == if cls == "menu-link" && h.menu.Some? then NavLinks(h.menu.value) else []
  {
    if h.menu.Some? {
      NavbarQuery(h.menu.value, cls);
    }
  }

  lemma SocialPartQuery(h: HeaderOptions, cls: string)
    requires cls == "menu-button" || cls == "menu-link" || cls == "social-link"
    ensures SelectAll(SocialPart(h), cls) ==
      if cls == "social-link" && h.social.Some? then SocialLinks(h.social.value) else []
  {
    if h.social.Some? {
      SocialBlockQuery(h.social.value, cls);
    }
  }

  lemma ButtonPartQuery(h: HeaderOptions, cls: string)
    ensures SelectAll(ButtonPart(h), cls) == if cls == "menu-button" && h.menu.Some? then [MenuButton()] else []
  {
    if h.menu.Some? {
      SelectSingle(MenuButton(), cls);
    }
  }

  /** Queried by one of the header's interactive classes, the header yields button, menu links and social links in document order. */
  lemma HeaderQuery(title: string, h: HeaderOptions, cls: string)
    requires cls == "menu-button" || cls == "menu-link" || cls == "social-link"
    ensures Select(CreateHeader(title, h), cls) ==
      (if cls == "menu-button" && h.menu.Some? then [MenuButton()] else [])
      + (if cls == "menu-link" && h.menu.Some? then NavLinks(h.menu.value) else [])
      + (if cls == "social-link" && h.social.Some? then SocialLinks(h.social.value) else [])
  {
    var w := Wrapper(title, h);
    WrapperQuery(title, h, cls);
    ButtonPartQuery(h, cls);
    SelectSingle(w, cls);
    SelectAllConcat(ButtonPart(h), [w], cls);
    SelectThrough(El("div", ["container"], map[]), ButtonPart(h) + [w], cls);
    SelectThrough(Build("header", None, None), [HeaderContainer(title, h)], cls);
  }

  /**
   * The header shows one `menu-link` anchor per menu entry, in the order of
   * the entries, each linking to the entry's link and showing its title;
   * without a menu there is none.
   */
  lemma MenuLinks(title: string, h: HeaderOptions)
    ensures var links := Select(CreateHeader(title, h), "menu-link");
      && |links| == (if h.menu.Some? then |h.menu.value| else 0)
      && (forall i :: 0 <= i < |links| ==> ShowsMenuItem(links[i], h.menu.value[i]))
      && forall x :: x in links ==> "menu-link" in x.classes
  {
    HeaderQuery(title, h, "menu-link");
    SelectFindsClass(CreateHeader(title, h), "menu-link");
    assert [] + (if h.menu.Some? then NavLinks(h.menu.value) else []) + [] ==
      if h.menu.Some? then NavLinks(h.menu.value) else [];
  }

  /** `link` is an anchor to the entry's link showing the entry's title. */
  predicate ShowsMenuItem(link: Element, item: MenuItem) {
    && link.tag == "a"
    && "href" in link.props && link.props["href"] == Text(item.link)
    && "textContent" in link.props && link.props["textContent"] == Text(item.title)
  }

  /** The header has a menu button exactly when a menu is configured, and then just one. */
  lemma MenuButtonIffMenu(title: string, h: HeaderOptions)
    ensures |Select(CreateHeader(title, h), "menu-button")| == Count(h.menu.Some?)
  {
    HeaderQuery(title, h, "menu-button");
  }

  /**
   * The header shows one `social-link` anchor per social entry, in order,
   * linking to the entry's link and wrapping an image of the entry's icon
   * with the entry's title as alt text.
   */
  lemma SocialIcons(title: string, h: HeaderOptions)
    ensures var links := Select(CreateHeader(title, h), "social-link");
      && |links| == (if h.social.Some? then |h.social.value| else 0)
      && (forall i :: 0 <= i < |links| ==> ShowsSocialItem(links[i], h.social.value[i]))
      && forall x :: x in links ==> "social-link" in x.classes
  {
    HeaderQuery(title, h, "social-link");
    SelectFindsClass(CreateHeader(title, h), "social-link");
    assert [] + [] + (if h.social.Some? then SocialLinks(h.social.value) else []) ==
      if h.social.Some? then SocialLinks(h.social.value) else [];
    if h.social.Some? {
      SocialLinksShow(h.social.value);
    }
  }

  /** `link` is an anchor to the item's link around one image of the item's icon, titled by the item. */
  predicate ShowsSocialItem(link: Element, item: SocialItem) {
    && link.tag == "a"
    && "href" in link.props && link.props["href"] == Text(item.link)
    && |link.children| == 1
    && var icon := link.children[0];
    && icon.tag == "img"
    && "src" in icon.props && icon.props["src"] == Text(item.image)
    && "alt" in icon.props && icon.props["alt"] == Text(item.title)
  }

  lemma SocialLinksShow(social: seq<SocialItem>)
    ensures forall i :: 0 <= i < |social| ==> ShowsSocialItem(SocialLinks(social)[i], social[i])
  {
  }

  /**
   * The live class lists of the menu button and the wrapper, which the
   * button's click handler toggles.
   */
  class MenuToggle {
    var buttonClasses: seq<string>
    var wrapperClasses: seq<string>

    predicate ButtonActive()
      reads this
    {
      ButtonActiveClass in buttonClasses
    }

    predicate WrapperActive()
      reads this
    {
      WrapperActiveClass in wrapperClasses
    }

    /** Both lists are as built, or both carry their active class at the end. */
    ghost predicate Valid()
      reads this
      ensures Valid() ==> (ButtonActive() <==> WrapperActive())
    {
      || (buttonClasses == MenuButton().classes && wrapperClasses == WrapperShell().classes)
      || (buttonClasses == MenuButton().classes + [ButtonActiveClass]
          && wrapperClasses == WrapperShell().classes + [WrapperActiveClass])
    }

    /** The menu starts closed: the classes the button and the wrapper are built with. */
    constructor ()
      ensures Valid() && !ButtonActive() && !WrapperActive()
      ensures buttonClasses == ["menu-button"] && wrapperClasses == ["header"]
    {
      buttonClasses := MenuButton().classes;
      wrapperClasses := WrapperShell().classes;
    }

    /** One click: both classes are toggled, so the menu opens or closes as a whole. */
    method Click()
      requires Valid()
      modifies this
      ensures Valid()
      ensures buttonClasses == ClassListToggle(old(buttonClasses), ButtonActiveClass)
      ensures wrapperClasses == ClassListToggle(old(wrapperClasses), WrapperActiveClass)
      ensures ButtonActive() == !old(ButtonActive()) && WrapperActive() == !old(WrapperActive())
    {
      if ButtonActive() {
        RemoveAppended(MenuButton().classes, ButtonActiveClass);
        RemoveAppended(WrapperShell().classes, WrapperActiveClass);
      }
      buttonClasses := ClassListToggle(buttonClasses, ButtonActiveClass);
      wrapperClasses := ClassListToggle(wrapperClasses, WrapperActiveClass);
    }

    /** Two clicks, from either state, leave both class lists as they were. */
    method ClickTwice()
      requires Valid()
      modifies this
      ensures Valid()
      ensures buttonClasses == old(buttonClasses) && wrapperClasses == old(wrapperClasses)
    {
      Click();
      Click();
    }
  }

  /** A menu that is opened and closed again is back to its built state. */
  method ToggleScenario()
  {
    var toggle := new MenuToggle();
    toggle.Click();
    assert toggle.ButtonActive() && toggle.WrapperActive();
    toggle.Click();
    assert toggle.buttonClasses == ["menu-button"] && toggle.wrapperClasses == ["header"];
  }
}

/**
 * `movieConstructor(selector, options)`: finds the mount element, styles it,
 * adds a favicon link to the document head, sets the document title, and
 * appends the header and the main section built from the configuration.
 */
module Page {
  import opened Wrappers
  import opened JsText
  import opened Dom
  import opened Settings
  import Header
  import MainSection

  const MountClass := "body-app"

  /** The mount element: its class list, the three inline styles set on it, and its children. */
  class Mount {
    var classes: seq<string>
    var color: string
    var backgroundColor: string
    var backgroundImage: string
    var children: seq<Element>

    constructor (classes: seq<string>)
      ensures this.classes == classes && children == []
      ensures color == "" && backgroundColor == "" && backgroundImage == ""
    {
      this.classes := classes;
      color, backgroundColor, backgroundImage := "", "", "";
      children := [];
    }
  }

  /** The host document: its title, the children of its head, and the element each selector finds. */
  class Document {
    var title: string
    var head: seq<Element>
    const mounts: map<string, Mount>

    constructor (title: string, head: seq<Element>, mounts: map<string, Mount>)
      ensures this.title == title && this.head == head && this.mounts == mounts
    {
      this.title := title;
      this.head := head;
      this.mounts := mounts;
    }
  }

  /**
   * `path.substring(path.lastIndexOf(".") + 1)`: what follows the last dot,
   * or the whole path when it has no dot.
   */
  function Extension(path: string): string {
    Substring(path, LastIndexOf(path, '.') + 1)
  }

  /**
   * The extension holds no dot and ends the path. It is the whole path
   * exactly when the path has no dot, and otherwise follows the last dot.
   */
  lemma ExtensionSpec(path: string)
    ensures var ext := Extension(path);
      && '.' !in ext
      && |ext| <= |path| && ext == path[|path| - |ext|..]
      && ('.' !in path <==> ext == path)
      && ('.' in path ==> path[|path| - |ext| - 1] == '.')
  {
    var index := LastIndexOf(path, '.');
    LastIndexOfSpec(path, '.');
    assert index >= 0 ==> path[index] in path;
  }

  /** The MIME type of the favicon: "image/" and the extension, with "svg" written "svg-xml". */
  function FaviconType(path: string): string {
    var ext := Extension(path);
    "image/" + (if ext == "svg" then "svg-xml" else ext)
  }

  /** A path ending in a dot and an extension without dots gets the type of that extension. */
  lemma {:induction false} FaviconTypeOf(stem: string, ext: string)
    requires '.' !in ext
    ensures FaviconType(stem + "." + ext) == "image/" + (if ext == "svg" then "svg-xml" else ext)
  {
    var path := stem + "." + ext;
    var e := Extension(path);
    ExtensionSpec(path);
    assert path[|stem|] == '.';
    assert path[|stem| + 1..] == ext;
    assert e == path[|path| - |ext|..];
  }

  /** A path without any dot is taken whole as the extension. */
  lemma FaviconTypeWithoutDot(path: string)
    requires '.' !in path
    ensures FaviconType(path) == "image/" + (if path == "svg" then "svg-xml" else path)
  {
    ExtensionSpec(path);
  }

  /** An SVG icon is announced as "image/svg-xml". */
  lemma SvgFavicon(stem: string)
    ensures FaviconType(stem + ".svg") == "image/svg-xml"
  {
    assert stem + ".svg" == stem + "." + "svg";
    FaviconTypeOf(stem, "svg");
  }

  /** A PNG icon, such as the configured "witcher/logo.png", is announced as "image/png". */
  lemma PngFavicon(stem: string)
    ensures FaviconType(stem + ".png") == "image/png"
  {
    assert stem + ".png" == stem + "." + "png";
    FaviconTypeOf(stem, "png");
    assert "png"[0] != "svg"[0];
  }

  /** Other extensions pass through as they are, even where "image/<ext>" is not a registered type. */
  lemma IcoFavicon(stem: string)
    ensures FaviconType(stem + ".ico") == "image/ico"
  {
    assert stem + ".ico" == stem + "." + "ico";
    FaviconTypeOf(stem, "ico");
    assert "ico"[0] != "svg"[0];
  }

  /** The link element added to the head for a favicon. */
  function FaviconLink(path: string): Element {
    Build("link", None, Some(map["rel" := Text("icon"), "href" := Text(path), "type" := Text(FaviconType(path))]))
  }

  /** The favicon link as the source builds it: the extension, then the element with its three properties. */
  method CreateFavicon(path: string) returns (link: Element)
    ensures link == FaviconLink(path)
    ensures link.tag == "link" && link.children == []
  {
    var index := LastIndexOf(path, '.');
    var ext := Substring(path, index + 1);
    var mime := "image/" + (if ext == "svg" then "svg-xml" else ext);
    assert ext == Extension(path);
    assert mime == FaviconType(path);
    link := GetElement("link", None, Some(map["rel" := Text("icon"), "href" := Text(path), "type" := Text(mime)]));
  }

  /** The mount's children grow by the header, when configured, and then by the main section, when configured. */
  lemma SectionsAppended(before: seq<Element>, afterHeader: seq<Element>, after: seq<Element>, options: Options)
    requires afterHeader == if options.header.Some? then before + [Header.CreateHeader(options.title, options.header.value)] else before
    requires after == if options.main.Some? then afterHeader + [MainSection.CreateMain(options.title, options.main.value)] else afterHeader
    ensures after == before
      + (if options.header.Some? then [Header.CreateHeader(options.title, options.header.value)] else [])
      + (if options.main.Some? then [MainSection.CreateMain(options.title, options.main.value)] else [])
  {
  }

  /**
   * Styles the mount element found by `selector`, extends the document head
   * and title, and appends the header (when configured) and then the main
   * section (when configured) to the mount element.
   */
  method MovieConstructor(doc: Document, selector: string, options: Options)
    requires selector in doc.mounts
    modifies doc, doc.mounts[selector]
    ensures doc.mounts[selector].classes == ClassListAdd(old(doc.mounts[selector].classes), MountClass)
    ensures doc.mounts[selector].color == OrEmpty(options.fontColor)
    ensures doc.mounts[selector].backgroundColor == OrEmpty(options.backgroundColor)
    ensures doc.mounts[selector].backgroundImage ==
      if Present(options.background) then "url(\"" + options.background.value + "\")" else ""
    ensures doc.title == options.title
    ensures doc.head == old(doc.head) + if Present(options.favicon) then [FaviconLink(options.favicon.value)] else []
    ensures doc.mounts[selector].children == old(doc.mounts[selector].children)
      + (if options.header.Some? then [Header.CreateHeader(options.title, options.header.value)] else [])
      + (if options.main.Some? then [MainSection.CreateMain(options.title, options.main.value)] else [])
  {
    var app := doc.mounts[selector];
    app.classes := ClassListAdd(app.classes, MountClass);

    app.color := OrEmpty(options.fontColor);
    app.backgroundColor := OrEmpty(options.backgroundColor);

    if Present(options.favicon) {
      var favicon := CreateFavicon(options.favicon.value);
      doc.head := doc.head + [favicon];
    }

    app.backgroundImage := if Present(options.background) then "url(\"" + options.background.value + "\")" else "";

    doc.title := options.title;

    var children := app.children;
    if options.header.Some? {
      children := children + [Header.CreateHeader(options.title, options.header.value)];
    }
    ghost var afterHeader := children;
    if options.main.Some? {
      children := children + [MainSection.CreateMain(options.title, options.main.value)];
    }
    SectionsAppended(app.children, afterHeader, children, options);
    app.children := children;
  }

  /** The configuration the page is built with: the series "Witcher". */
  function WitcherOptions(): Options {
    Options(
      "Witcher",
      Some("witcher/logo.png"),
      Some("witcher/background.jpg"),
      Some("#ffffff"),
      Some("#141218"),
      Some(HeaderOptions(
        Some("witcher/logo.png"),
        Some([MenuItem("Описание", "#"), MenuItem("Трейлер", "#"), MenuItem("Отзывы", "#")]),
        Some([
          SocialItem("Twitter", "https://twitter.com/", "witcher/social/twitter.svg"),
          SocialItem("Instagram", "https://www.instagram.com/", "witcher/social/instagram.svg"),
          SocialItem("Facebook", "https://www.facebook.com/", "witcher/social/facebook.svg")]))),
      Some(MainOptions(
        Some("2019, фентези"),
        Some(8),
        Some("Ведьмак Геральт, мутант и убийца чудовищ."),
        Some("https://www.youtube.com/watch?v=P0oJqfLzZzQ"),
        Some([
          SlideItem("witcher/series/series-1.jpg", Some("Начало конца"), Some("Серия №1")),
          SlideItem("witcher/series/series-2.jpg", Some("Четыре марки"), Some("Серия №2")),
          SlideItem("witcher/series/series-3.jpg", Some("Предательская луна"), Some("Серия №3")),
          SlideItem("witcher/series/series-4.jpg", Some("Банкеты, ублюдки и похороны"), Some("Серия №4"))]))))
  }

  /** The page as the application builds it, mounted on ".app". */
  method WitcherPage()
  {
    var app := new Mount([]);
    var doc := new Document("", [], map[".app" := app]);
    var options := WitcherOptions();
    MovieConstructor(doc, ".app", options);
    assert doc.title == "Witcher";
    assert |doc.head| == 1;
    assert app.classes == ["body-app"];
    assert doc.head == [FaviconLink("witcher/logo.png")];
    assert |app.children| == 2;
  }
}

/**
 * `createMain`: the hero section built from the page title and the main
 * section of the configuration: genre label, rating widget, title,
 * description, trailer links and the slide cards of the carousel.
 */
module MainSection {
  import opened Wrappers
  import opened JsText
  import opened Dom
  import opened Settings

  const TrailerCaption := "Смотреть трейлер"
  const StarFilled := "img/star.svg"
  const StarOutline := "img/star-o.svg"
  const PlayIconSource := "img/play.svg"

  /** The accessible text of the rating, "Рейтинг R из 10". */
  function RatingLabel(rating: int): string {
    "Рейтинг " + IntToString(rating) + " из 10"
  }

  /** The numeric label of the rating, "R/10". */
  function RatingNumberText(rating: int): string {
    IntToString(rating) + "/10"
  }

  /** Star `i` of ten: filled below the rating, outline from it on; only the first one is labelled. */
  function Star(rating: int, i: nat): Element {
    El("img", ["star"], map[
      "alt" := Text(if i != 0 then "" else RatingLabel(rating)),
      "src" := Text(if i < rating then StarFilled else StarOutline)])
  }

  function Stars(rating: int): seq<Element> {
    seq(10, i requires 0 <= i < 10 => Star(rating, i))
  }

  predicate IsFilled(star: Element) {
    "src" in star.props && star.props["src"] == Text(StarFilled)
  }

  /** The rating widget's loop: ten stars, built one at a time and appended in order. */
  method BuildStars(rating: int) returns (stars: seq<Element>)
    ensures stars == Stars(rating)
    ensures |stars| == 10
    ensures forall i :: 0 <= i < |stars| ==>
      && stars[i].tag == "img" && stars[i].classes == ["star"] && stars[i].children == []
      && "src" in stars[i].props && "alt" in stars[i].props
      && (IsFilled(stars[i]) <==> i < rating)
      && (!IsFilled(stars[i]) <==> stars[i].props["src"] == Text(StarOutline))
      && (stars[i].props["alt"] == Text("") <==> i != 0)
      && (i == 0 ==> stars[i].props["alt"] == Text(RatingLabel(rating)))
  {
    stars := [];
    for i := 0 to 10
      invariant |stars| == i
      invariant forall k :: 0 <= k < i ==> stars[k] == Star(rating, k)
    {
      var star := GetElement("img", Some(["star"]), Some(map[
        "alt" := Text(if i != 0 then "" else RatingLabel(rating)),
        "src" := Text(if i < rating then StarFilled else StarOutline)]));
      ElIsBuild("img", ["star"], star.props);
      stars := stars + [star];
    }
  }

  function FilledCount(stars: seq<Element>): nat {
    if stars == [] then 0 else FilledCount(stars[..|stars| - 1]) + Count(IsFilled(stars[|stars| - 1]))
  }

  /** `rating` clamped into `[0, hi]`. */
  function Clamp(rating: int, hi: nat): nat {
    if rating < 0 then 0 else if rating > hi then hi else rating
  }

  lemma {:induction false} FilledPrefix(rating: int, k: nat)
    requires k <= 10
    ensures FilledCount(Stars(rating)[..k]) == Clamp(rating, k)
  {
    if k > 0 {
      var stars := Stars(rating);
      assert stars[..k][..k - 1] == stars[..k - 1];
      FilledPrefix(rating, k - 1);
      assert IsFilled(stars[k - 1]) <==> k - 1 < rating;
    }
  }

  /**
   * Of the ten stars, as many are filled as the rating says, clamped into
   * 0..10, and the rest are outlines.
   */
  lemma StarsFilledCount(rating: int)
    ensures |Stars(rating)| == 10
    ensures FilledCount(Stars(rating)) == Clamp(rating, 10)
    ensures 0 <= rating <= 10 ==> FilledCount(Stars(rating)) == rating
  {
    FilledPrefix(rating, 10);
    assert Stars(rating)[..10] == Stars(rating);
  }

  /** The rating widget: the row of stars, then the "R/10" label. */
  function RatingBlock(rating: int): Element {
    Append(RatingShell(), [StarsRow(rating), RatingNumber(rating)])
  }

  function RatingShell(): Element {
    El("div", ["rating", "animated", "fadeInRight"], map[])
  }

  function StarsShell(): Element {
    El("div", ["rating-stars"], map[])
  }

  function StarsRow(rating: int): Element {
    Append(StarsShell(), Stars(rating))
  }

  function RatingNumber(rating: int): Element {
    El("div", ["rating-number"], map["textContent" := Text(RatingNumberText(rating))])
  }

  function TitleHeading(title: string): Element {
    El("h1", ["main-title", "animated", "fadeInRight"], map["textContent" := Text(title)])
  }

  function DescriptionParagraph(description: string): Element {
    El("p", ["main-description", "animated", "fadeInRight"], map["textContent" := Text(description)])
  }

  function TrailerButton(trailer: string): Element {
    El("a", ["button", "animated", "fadeInRight", "youtube-modal"],
      map["href" := Text(trailer), "textContent" := Text(TrailerCaption)])
  }

  function PlayIcon(): Element {
    El("img", ["play-img"], map["src" := Text(PlayIconSource), "alt" := Text(""), "ariaHidden" := Flag(true)])
  }

  /** The icon-only trailer link; its class is spelled `youtube-maodal` in the source. */
  function PlayLink(trailer: string): Element {
    Append(El("a", ["play", "youtube-maodal"], map["href" := Text(trailer), "ariaLabel" := Text(TrailerCaption)]),
      [PlayIcon()])
  }

  function GenreLabel(genre: string): Element {
    El("span", ["genre", "animated", "fadeInRight"], map["textContent" := Text(genre)])
  }

  /** One line of a slide caption: the class of its paragraph and its text. */
  datatype CaptionLine = CaptionLine(cls: string, text: string)

  /** The caption lines of a slide: the subtitle first, then the title, each only when truthy. */
  function CaptionLines(item: SlideItem): seq<CaptionLine> {
    (if Present(item.subtitle) then [CaptionLine("card-subtitle", item.subtitle.value)] else [])
    + (if Present(item.title) then [CaptionLine("card-title", item.title.value)] else [])
  }

  function LineParagraphs(lines: seq<CaptionLine>): seq<Element> {
    seq(|lines|, i requires 0 <= i < |lines| => El("p", [lines[i].cls], map["textContent" := Text(lines[i].text)]))
  }

  /** `((title || "") + " " + (subtitle || "")).trim()` */
  function SlideAlt(item: SlideItem): string {
    Trim(OrEmpty(item.title) + " " + OrEmpty(item.subtitle))
  }

  predicate HasCaption(item: SlideItem) {
    Present(item.title) || Present(item.subtitle)
  }

  function CardImage(item: SlideItem): Element {
    El("img", ["card-img"], map["src" := Text(item.img), "alt" := Text(SlideAlt(item))])
  }

  function Caption(item: SlideItem): Element {
    Append(El("figcaption", ["card-description"], map[]), LineParagraphs(CaptionLines(item)))
  }

  function Card(item: SlideItem): Element {
    Append(El("figure", ["card"], map[]),
      [CardImage(item)] + (if HasCaption(item) then [Caption(item)] else []))
  }

  function Slide(item: SlideItem): Element {
    Append(El("a", ["swiper-slide"], map["href" := Text("#")]), [Card(item)])
  }

  /** `slider.map(...)`: one slide per entry. */
  function Slides(slider: seq<SlideItem>): seq<Element> {
    seq(|slider|, i requires 0 <= i < |slider| => Slide(slider[i]))
  }

  function ArrowButton(): Element {
    El("button", ["arrow"], map[])
  }

  function SwiperBlock(slider: seq<SlideItem>): Element {
    Append(El("div", ["swiper-container"], map[]), [SwiperWrapper(slider)])
  }

  function SwiperWrapper(slider: seq<SlideItem>): Element {
    Append(El("div", ["swiper-wrapper"], map[]), Slides(slider))
  }

  function SliderBlock(slider: seq<SlideItem>): Element {
    Append(El("div", ["series"], map[]), [SwiperBlock(slider), ArrowButton()])
  }

  /** The rating block, present only when the rating is truthy. */
  function RatingPart(m: MainOptions): seq<Element> {
    if Rated(m.rating) then [RatingBlock(m.rating.value)] else []
  }

  /** The title heading, then the description and the trailer button when they are set. */
  function TextParts(title: string, m: MainOptions): seq<Element> {
    [TitleHeading(title)]
    + (if Present(m.description) then [DescriptionParagraph(m.description.value)] else [])
    + (if Present(m.trailer) then [TrailerButton(m.trailer.value)] else [])
  }

  /** The content block: rating, title heading, description and trailer button, in that order. */
  function Content(title: string, m: MainOptions): Element {
    Append(El("div", ["content"], map[]), RatingPart(m) + TextParts(title, m))
  }

  /** The play link, present only when a trailer is set. */
  function PlayPart(m: MainOptions): seq<Element> {
    if Present(m.trailer) then [PlayLink(m.trailer.value)] else []
  }

  /** The main-content wrapper: the content block, then the play link. */
  function MainWrapper(title: string, m: MainOptions): Element {
    Append(El("div", ["main-content"], map[]),
      [Content(title, m)] + PlayPart(m))
  }

  /** The container: the wrapper, then the genre label, then the slider. */
  function MainContainer(title: string, m: MainOptions): Element {
    Append(El("div", ["container"], map[]), [MainWrapper(title, m)] + GenrePart(m) + SliderPart(m))
  }

  function GenrePart(m: MainOptions): seq<Element> {
    if Present(m.genre) then [GenreLabel(m.genre.value)] else []
  }

  function SliderPart(m: MainOptions): seq<Element> {
    if m.slider.Some? then [SliderBlock(m.slider.value)] else []
  }

  /** `createMain({title, main})` */
  function CreateMain(title: string, m: MainOptions): Element {
    Append(Build("main", None, None), [MainContainer(title, m)])
  }

  /**
   * The main element holds one container. The container's first child is
   * the main-content wrapper. The genre label follows it when a genre is set,
   * and the slider comes last when slides are configured. The wrapper holds
   * the content block, then the play link when a trailer is set.
   */
  lemma MainLayout(title: string, m: MainOptions)
    ensures var r := CreateMain(title, m);
      && r.tag == "main" && r.classes == [] && |r.children| == 1
      && var container := r.children[0];
      && var n := |container.children|;
      && container.tag == "div" && container.classes == ["container"]
      && n == 1 + Count(Present(m.genre)) + Count(m.slider.Some?)
      && (Present(m.genre) ==>
            && container.children[1].tag == "span"
            && "textContent" in container.children[1].props
            && container.children[1].props["textContent"] == Text(m.genre.value))
      && (m.slider.Some? ==>
            && container.children[n - 1].classes == ["series"]
            && |container.children[n - 1].children| == 2
            && container.children[n - 1].children[0].children[0].children == Slides(m.slider.value)
            && container.children[n - 1].children[1] == ArrowButton())
      && var wrapper := container.children[0];
      && wrapper.classes == ["main-content"]
      && |wrapper.children| == 1 + Count(Present(m.trailer))
      && wrapper.children[0] == Content(title, m)
  {
  }

  /**
   * The content block holds, in order: the rating block (only when rated),
   * the title heading (always), the description (only when non-empty) and
   * the trailer button (only when a trailer is set). The rating block shows
   * the ten stars and the label "R/10".
   */
  lemma ContentOrder(title: string, m: MainOptions)
    ensures var c := Content(title, m);
      var h := Count(Rated(m.rating));
      var n := |c.children|;
      && c.classes == ["content"]
      && n == h + 1 + Count(Present(m.description)) + Count(Present(m.trailer))
      && c.children[h].tag == "h1"
      && "textContent" in c.children[h].props && c.children[h].props["textContent"] == Text(title)
      && (Rated(m.rating) ==>
            && c.children[0].classes == ["rating", "animated", "fadeInRight"]
            && |c.children[0].children| == 2
            && c.children[0].children[0].children == Stars(m.rating.value)
            && "textContent" in c.children[0].children[1].props
            && c.children[0].children[1].props["textContent"] == Text(IntToString(m.rating.value) + "/10"))
      && (Present(m.description) ==>
            && c.children[h + 1].tag == "p"
            && "textContent" in c.children[h + 1].props
            && c.children[h + 1].props["textContent"] == Text(m.description.value))
      && (Present(m.trailer) ==>
            && c.children[n - 1].tag == "a"
            && "href" in c.children[n - 1].props && c.children[n - 1].props["href"] == Text(m.trailer.value)
            && "textContent" in c.children[n - 1].props
            && c.children[n - 1].props["textContent"] == Text(TrailerCaption))
  {
  }

  /**
   * With a trailer, the play link follows the content block in the wrapper,
   * points where the trailer button points, and wraps a hidden icon.
   */
  lemma TrailerLinksAgree(title: string, m: MainOptions)
    requires Present(m.trailer)
    ensures var w := MainWrapper(title, m);
      var c := Content(title, m);
      && |w.children| == 2 && w.children[0] == c
      && var play := w.children[1];
      && play.tag == "a"
      && "href" in play.props && "href" in c.children[|c.children| - 1].props
      && play.props["href"] == c.children[|c.children| - 1].props["href"] == Text(m.trailer.value)
      && |play.children| == 1
      && play.children[0].tag == "img"
      && "ariaHidden" in play.children[0].props && play.children[0].props["ariaHidden"] == Flag(true)
  {
    ContentOrder(title, m);
  }

  /** A rating of 8 on an otherwise empty main section: heading, 8 filled and 2 outline stars, "8/10", nothing else. */
  lemma RatingScenario()
    ensures var m := MainOptions(None, Some(8), None, None, None);
      var r := CreateMain("X", m);
      var c := r.children[0].children[0].children[0];
      && |r.children[0].children| == 1 && |r.children[0].children[0].children| == 1
      && |c.children| == 2
      && c.children[1].props["textContent"] == Text("X")
      && c.children[0].children[1].props["textContent"] == Text("8/10")
      && FilledCount(c.children[0].children[0].children) == 8
      && |c.children[0].children[0].children| == 10
  {
    var m := MainOptions(None, Some(8), None, None, None);
    MainLayout("X", m);
    ContentOrder("X", m);
    StarsFilledCount(8);
    assert IntToString(8) == "8";
  }

  /** The caption lines: the subtitle's line first, then the title's, each present exactly when the field is truthy. */
  lemma CaptionOrder(item: SlideItem)
    ensures var lines := CaptionLines(item);
      && |lines| == Count(Present(item.subtitle)) + Count(Present(item.title))
      && (|lines| > 0 <==> HasCaption(item))
      && (Present(item.subtitle) ==> lines[0] == CaptionLine("card-subtitle", item.subtitle.value))
      && (Present(item.title) ==> lines[|lines| - 1] == CaptionLine("card-title", item.title.value))
  {
  }

  /**
   * The alt text of a slide image joins title and subtitle with one space,
   * leaving out a missing part and the space with it, provided neither part
   * starts or ends with white space of its own.
   */
  lemma SlideAltText(item: SlideItem)
    requires Tidy(OrEmpty(item.title)) && Tidy(OrEmpty(item.subtitle))
    ensures Present(item.title) && Present(item.subtitle) ==>
      SlideAlt(item) == item.title.value + " " + item.subtitle.value
    ensures Present(item.title) && !Present(item.subtitle) ==> SlideAlt(item) == item.title.value
    ensures !Present(item.title) && Present(item.subtitle) ==> SlideAlt(item) == item.subtitle.value
    ensures !HasCaption(item) ==> SlideAlt(item) == ""
  {
    var t, u := OrEmpty(item.title), OrEmpty(item.subtitle);
    TrimJoin(t, u);
    assert SlideAlt(item) == Trim(t + " " + u);
  }

  /**
   * A slide is a link to "#" around one card. The card shows the slide's
   * image with its alt text, then the caption exactly when the slide has a
   * title or a subtitle.
   */
  lemma SlideLayout(item: SlideItem)
    ensures var s := Slide(item);
      && s.tag == "a" && s.classes == ["swiper-slide"]
      && "href" in s.props && s.props["href"] == Text("#")
      && |s.children| == 1
      && var card := s.children[0];
      && card.tag == "figure"
      && |card.children| == 1 + Count(HasCaption(item))
      && card.children[0].tag == "img"
      && "src" in card.children[0].props && card.children[0].props["src"] == Text(item.img)
      && "alt" in card.children[0].props && card.children[0].props["alt"] == Text(SlideAlt(item))
      && (HasCaption(item) ==> card.children[1] == Caption(item))
  {
  }

  /** The caption holds the caption lines, in order, as paragraphs of their class and text. */
  lemma CaptionLayout(item: SlideItem)
    ensures var c := Caption(item);
      var lines := CaptionLines(item);
      && c.tag == "figcaption"
      && |c.children| == |lines|
      && forall k :: 0 <= k < |lines| ==>
           && c.children[k].tag == "p"
           && c.children[k].classes == [lines[k].cls]
           && "textContent" in c.children[k].props
           && c.children[k].props["textContent"] == Text(lines[k].text)
  {
  }

  lemma StarsQuery(rating: int, cls: string)
    ensures SelectAll(Stars(rating), cls) == if cls == "star" then Stars(rating) else []
  {
    SelectUniformLeaves(Stars(rating), "star", cls);
  }

  lemma RatingBlockQuery(rating: int, cls: string)
    requires cls == "star" || cls == "swiper-slide"
    ensures SelectAll([RatingBlock(rating)], cls) == if cls == "star" then Stars(rating) else []
  {
    StarsQuery(rating, cls);
    RatingShapeQuery(Stars(rating), RatingNumber(rating), cls);
  }

  /** The query through the rating widget's two wrappers, for any row of stars and any unmarked label. */
  lemma RatingShapeQuery(stars: seq<Element>, number: Element, cls: string)
    requires cls == "star" || cls == "swiper-slide"
    requires SelectAll(stars, cls) == if cls == "star" then stars else []
    requires number.children == [] && cls !in number.classes
    ensures SelectAll([Append(RatingShell(), [Append(StarsShell(), stars), number])], cls) ==
      if cls == "star" then stars else []
  {
    var row := Append(StarsShell(), stars);
    SelectThrough(StarsShell(), stars, cls);
    SelectLeavesWithout([number], cls);
    SelectAllConcat([row], [number], cls);
    assert [row, number] == [row] + [number];
    SelectThrough(RatingShell(), [row, number], cls);
  }

  lemma ContentQuery(title: string, m: MainOptions, cls: string)
    requires cls == "star" || cls == "swiper-slide"
    ensures SelectAll([Content(title, m)], cls) ==
      if cls == "star" && Rated(m.rating) then Stars(m.rating.value) else []
  {
    TextPartsQuery(title, m, cls);
    RatingPartQuery(m, cls);
    SelectAllConcat(RatingPart(m), TextParts(title, m), cls);
    SelectThrough(El("div", ["content"], map[]), RatingPart(m) + TextParts(title, m), cls);
  }

  lemma RatingPartQuery(m: MainOptions, cls: string)
    requires cls == "star" || cls == "swiper-slide"
    ensures SelectAll(RatingPart(m), cls) == if cls == "star" && Rated(m.rating) then Stars(m.rating.value) else []
  {
    if Rated(m.rating) {
      RatingBlockQuery(m.rating.value, cls);
    }
  }

  /** The title, description and trailer button of the content block are leaves without a queried class. */
  lemma TextPartsQuery(title: string, m: MainOptions, cls: string)
    requires cls == "star" || cls == "swiper-slide"
    ensures SelectAll(TextParts(title, m), cls) == []
  {
    var rest := TextParts(title, m);
    forall i | 0 <= i < |rest|
      ensures rest[i].children == [] && cls !in rest[i].classes
    {
      if i > 0 && i == |rest| - 1 && Present(m.trailer) {
        assert rest[i] == TrailerButton(m.trailer.value);
      } else if i > 0 {
        assert rest[i] == DescriptionParagraph(m.description.value);
      }
    }
    SelectLeavesWithout(rest, cls);
  }

  lemma WrapperQuery(title: string, m: MainOptions, cls: string)
    requires cls == "star" || cls == "swiper-slide"
    ensures SelectAll([MainWrapper(title, m)], cls) ==
      if cls == "star" && Rated(m.rating) then Stars(m.rating.value) else []
  {
    ContentQuery(title, m, cls);
    PlayPartQuery(m, cls);
    SelectAllConcat([Content(title, m)], PlayPart(m), cls);
    SelectThrough(El("div", ["main-content"], map[]), [Content(title, m)] + PlayPart(m), cls);
  }

  lemma PlayPartQuery(m: MainOptions, cls: string)
    requires cls == "star" || cls == "swiper-slide"
    ensures SelectAll(PlayPart(m), cls) == []
  {
    if Present(m.trailer) {
      var shell := El("a", ["play", "youtube-maodal"],
        map["href" := Text(m.trailer.value), "ariaLabel" := Text(TrailerCaption)]);
      SelectLeavesWithout([PlayIcon()], cls);
      SelectThrough(shell, [PlayIcon()], cls);
    }
  }


  lemma CaptionQuery(item: SlideItem, cls: string)
    requires cls == "star" || cls == "swiper-slide"
    ensures SelectAll([Caption(item)], cls) == []
  {
    var lines := CaptionLines(item);
    var ps := LineParagraphs(lines);
    forall i | 0 <= i < |ps|
      ensures ps[i].children == [] && cls !in ps[i].classes
    {
      assert lines[i].cls == "card-subtitle" || lines[i].cls == "card-title";
    }
    SelectLeavesWithout(ps, cls);
    SelectThrough(El("figcaption", ["card-description"], map[]), ps, cls);
  }

  /** A slide is found by its own class and by no class of the main section's other widgets. */
  lemma SlideQuery(item: SlideItem, cls: string)
    requires cls == "star" || cls == "swiper-slide"
    ensures SelectAll([Slide(item)], cls) == if cls == "swiper-slide" then [Slide(item)] else []
  {
    var img := CardImage(item);
    var captionPart := if HasCaption(item) then [Caption(item)] else [];
    if HasCaption(item) {
      CaptionQuery(item, cls);
    }
    SelectLeavesWithout([img], cls);
    SelectAllConcat([img], captionPart, cls);
    SelectThrough(El("figure", ["card"], map[]), [img] + captionPart, cls);
    var card := Card(item);
    var s := Slide(item);
    assert s.children == [card] && s.classes == ["swiper-slide"];
    SelectSingle(s, cls);
    SelectSingle(card, cls);
  }

  lemma SlidesQuery(slider: seq<SlideItem>, cls: string)
    requires cls == "star" || cls == "swiper-slide"
    ensures SelectAll(Slides(slider), cls) == if cls == "swiper-slide" then Slides(slider) else []
  {
    var ss := Slides(slider);
    forall i | 0 <= i < |ss|
      ensures Select(ss[i], cls) == if cls == "swiper-slide" then [ss[i]] else []
    {
      SlideQuery(slider[i], cls);
      SelectSingle(ss[i], cls);
    }
    SelectAllEach(ss, cls, cls == "swiper-slide");
  }

  lemma SwiperQuery(slider: seq<SlideItem>, cls: string)
    requires cls == "star" || cls == "swiper-slide"
    ensures SelectAll([SwiperBlock(slider)], cls) == if cls == "swiper-slide" then Slides(slider) else []
  {
    SlidesQuery(slider, cls);
    SelectThrough(El("div", ["swiper-wrapper"], map[]), Slides(slider), cls);
    SelectThrough(El("div", ["swiper-container"], map[]), [SwiperWrapper(slider)], cls);
  }

  lemma SliderQuery(slider: seq<SlideItem>, cls: string)
    requires cls == "star" || cls == "swiper-slide"
    ensures SelectAll([SliderBlock(slider)], cls) == if cls == "swiper-slide" then Slides(slider) else []
  {
    SwiperQuery(slider, cls);
    SelectLeavesWithout([ArrowButton()], cls);
    SelectAllConcat([SwiperBlock(slider)], [ArrowButton()], cls);
    assert [SwiperBlock(slider), ArrowButton()] == [SwiperBlock(slider)] + [ArrowButton()];
    SelectThrough(El("div", ["series"], map[]), [SwiperBlock(slider), ArrowButton()], cls);
  }

  /** Queried by star or by slide, the main section yields the rating's stars and the slides, in document order. */
  lemma GenrePartQuery(m: MainOptions, cls: string)
    requires cls == "star" || cls == "swiper-slide"
    ensures SelectAll(GenrePart(m), cls) == []
  {
    SelectLeavesWithout(GenrePart(m), cls);
  }

  lemma SliderPartQuery(m: MainOptions, cls: string)
    requires cls == "star" || cls == "swiper-slide"
    ensures SelectAll(SliderPart(m), cls) == if cls == "swiper-slide" && m.slider.Some? then Slides(m.slider.value) else []
  {
    if m.slider.Some? {
      SliderQuery(m.slider.value, cls);
    }
  }

  lemma MainQuery(title: string, m: MainOptions, cls: string)
    requires cls == "star" || cls == "swiper-slide"
    ensures Select(CreateMain(title, m), cls) ==
      (if cls == "star" && Rated(m.rating) then Stars(m.rating.value) else [])
      + (if cls == "swiper-slide" && m.slider.Some? then Slides(m.slider.value) else [])
  {
    WrapperQuery(title, m, cls);
    GenrePartQuery(m, cls);
    SliderPartQuery(m, cls);
    SelectAllConcat([MainWrapper(title, m)], GenrePart(m), cls);
    SelectAllConcat([MainWrapper(title, m)] + GenrePart(m), SliderPart(m), cls);
    SelectThrough(El("div", ["container"], map[]), [MainWrapper(title, m)] + GenrePart(m) + SliderPart(m), cls);
    SelectThrough(Build("main", None, None), [MainContainer(title, m)], cls);
  }


  /**
   * The page shows ten stars exactly when the rating is truthy and none
   * otherwise; as many of them are filled as the rating, clamped into 0..10.
   */
  lemma StarsShown(title: string, m: MainOptions)
    ensures var stars := Select(CreateMain(title, m), "star");
      && |stars| == (if Rated(m.rating) then 10 else 0)
      && FilledCount(stars) == (if Rated(m.rating) then Clamp(m.rating.value, 10) else 0)
  {
    MainQuery(title, m, "star");
    if Rated(m.rating) {
      assert Select(CreateMain(title, m), "star") == Stars(m.rating.value);
      StarsFilledCount(m.rating.value);
    }
  }

  /** The page shows one slide per slider entry, in the entries' order, each a link to "#" whose image shows the entry's picture. */
  lemma SlidesShown(title: string, m: MainOptions)
    ensures var slides := Select(CreateMain(title, m), "swiper-slide");
      && |slides| == (if m.slider.Some? then |m.slider.value| else 0)
      && (forall x :: x in slides ==> "swiper-slide" in x.classes)
      && forall i :: 0 <= i < |slides| ==>
           && "href" in slides[i].props && slides[i].props["href"] == Text("#")
           && |slides[i].children| == 1 && |slides[i].children[0].children| >= 1
           && var img := slides[i].children[0].children[0];
           && "src" in img.props && img.props["src"] == Text(m.slider.value[i].img)
           && "alt" in img.props && img.props["alt"] == Text(SlideAlt(m.slider.value[i]))
  {
    MainQuery(title, m, "swiper-slide");
    SelectFindsClass(CreateMain(title, m), "swiper-slide");
  }
}

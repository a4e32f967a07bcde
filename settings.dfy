/**
 * The page configuration handed to `movieConstructor`: a read-only record
 * whose sections and fields may each be left out, and the JavaScript
 * truthiness tests the page builder applies to them.
 */
module Settings {
  import opened Wrappers

  datatype MenuItem = MenuItem(title: string, link: string)

  datatype SocialItem = SocialItem(title: string, link: string, image: string)

  datatype SlideItem = SlideItem(img: string, title: Option<string>, subtitle: Option<string>)

  datatype HeaderOptions = HeaderOptions(
    logo: Option<string>,
    menu: Option<seq<MenuItem>>,
    social: Option<seq<SocialItem>>)

  datatype MainOptions = MainOptions(
    genre: Option<string>,
    rating: Option<int>,
    description: Option<string>,
    trailer: Option<string>,
    slider: Option<seq<SlideItem>>)

  datatype Options = Options(
    title: string,
    favicon: Option<string>,
    background: Option<string>,
    fontColor: Option<string>,
    backgroundColor: Option<string>,
    header: Option<HeaderOptions>,
    main: Option<MainOptions>)

  /** A string field is truthy when it is given and not empty. */
  predicate Present(field: Option<string>) {
    field.Some? && field.value != ""
  }

  /** A rating is truthy when it is given and not 0 (a negative rating is truthy). */
  predicate Rated(rating: Option<int>) {
    rating.Some? && rating.value != 0
  }

  /** How many fragments a test that is passed or failed contributes: one or none. */
  function Count(b: bool): nat {
    if b then 1 else 0
  }

  /** `field || ""`: the field when it is truthy, otherwise the empty string. */
  function OrEmpty(field: Option<string>): (r: string)
    ensures r == "" <==> !Present(field)
    ensures Present(field) ==> r == field.value
  {
    if Present(field) then field.value else ""
  }
}

# Movie landing page builder, modelled in Dafny

The page builder in `js/main.js` turns one configuration record into DOM nodes.
Its parts are these:

- `getElement(tagName, classNames, attributes)` builds a single element.
- `createHeader` builds the header. It shows the logo, the menu links and the
  social icons, and adds a menu button whose click toggles two classes.
- `createMain` builds the hero section: the genre label, the ten-star rating
  widget, the title, the description, the two trailer links and the slide cards
  of the carousel.
- `movieConstructor(selector, options)` styles the mount element, adds a
  favicon link whose MIME type comes from the file extension, sets the document
  title, and appends the header and the main section when they are configured.

The model has seven modules:

- `Wrappers`: `Option`.
- `JsText`: the JavaScript string operations the builder relies on.
  - `trim` strips the full ECMAScript white-space set.
  - `lastIndexOf` returns -1 when the character is missing.
  - `substring` clamps its start.
  - An integer of magnitude below 10^21 inside a template literal prints in decimal.
- `Dom`: the element tree as a value, with these parts:
  - `classList.add` and `classList.toggle` on a class list that is an ordered set.
  - The element builder, as a method with the source's `for...in` loop, proved against the function `Build`.
  - `Select`: a query for the elements carrying a class, in document order.
- `Settings`: the configuration records and JavaScript truthiness.
  - A string field is truthy when it is present and non-empty.
  - A rating is truthy when it is present and non-zero.
  - A list or a section is truthy when it is present.
- `Header`: the header tree, and the `MenuToggle` class that holds the two live class lists the click handler toggles.
- `MainSection`: the hero tree, and the star loop as a method proved against the function `Stars`.
- `Page`: these parts:
  - `movieConstructor`, as a method over a `Document` and its `Mount` elements.
  - The favicon MIME type.
  - The hard-coded "Witcher" configuration.

The assemblers only build values, so the model writes them as functions returning trees. Each append in the source is a sequence concatenation in the order the source appends.

Two details of the code are kept as written:

- The genre label is appended to the container after the main-content wrapper (`js/main.js:84`, `js/main.js:93`).
- The icon-only trailer link's class is spelled `youtube-maodal` (`js/main.js:143`), while the text link's is `youtube-modal` (`js/main.js:136`).

## Model

| member | source | states |
|---|---|---|
| Dom.GetElement | js/main.js:1-15 | `getElement` is the function `Dom.Build`. The element has the given tag and no children. Its class list is the class names added one by one to an empty list. Its properties are exactly the attribute keys, each holding the attribute's value. The result equals the reference `Build`. |
| Dom.ClassListAddSpec | js/main.js:5 | For `Dom.ClassListAdd`: adding a token keeps the old list as a prefix. The token is then present, and no other token appears. The list stays free of duplicates. Adding the same token again changes nothing. |
| Dom.ClassListAddAllSpec | js/main.js:4-6 | Adding several tokens yields exactly the old tokens and the new ones. The old list stays a prefix, and the list stays free of duplicates. |
| Dom.ClassListAddAllFresh | js/main.js:4-6 | Tokens that are new and all different are appended in the order given. |
| Dom.ElIsBuild | js/main.js:1-15 | With all-different class names, the built element carries those names exactly as written. The assemblers rely on this. |
| Dom.ClassListToggle | js/main.js:45-46 | Toggling flips whether the token is present and leaves every other token as it was. |
| Dom.ToggleTwice | js/main.js:44-47 | Toggling an absent token twice restores the list exactly. |
| Header.HeaderLayout | js/main.js:17-74 | `createHeader` is the function `Header.CreateHeader`. The header holds one container. The menu button is first when a menu is configured. The wrapper is always last. |
| Header.WrapperLayout | js/main.js:20-68 | The wrapper holds, in order, the logo (alt text "Логотип " + title), the navigation and the social block. Each is present exactly when its field is truthy. |
| Header.HeaderQuery | js/main.js:17-74 | A query by the button, menu-link or social-link class finds, in document order, the button (only with a menu), the menu links and the social links. |
| Header.MenuLinks | js/main.js:30-41 | There is one menu link per menu entry, in entry order. Each links to the entry's link and shows its title. Without a menu there are none. Every element found carries the `menu-link` class. |
| Header.MenuButtonIffMenu | js/main.js:43-48 | There is exactly one menu button with a menu and none without. |
| Header.SocialIcons | js/main.js:51-68 | There is one social link per entry, in order. Each links to the entry's link and wraps one image of the entry's icon, with the entry's title as alt text. Every element found carries the `social-link` class. |
| Header.MenuToggle.constructor | js/main.js:43-47 | The menu starts closed: the button and the wrapper carry only the classes they were built with. |
| Header.MenuToggle.Click | js/main.js:44-47 | One click toggles the active class on the button and on the wrapper. Both flags flip, and the two stay in step. |
| Header.MenuToggle.ClickTwice | js/main.js:44-47 | From either state, a second click undoes the first: both class lists are back as they were. |
| MainSection.BuildStars | js/main.js:107-113 | The loop builds exactly ten stars. Star i is filled exactly when i is below the rating, and is an outline otherwise. Only the first star carries the alt text "Рейтинг R из 10". |
| MainSection.StarsFilledCount | js/main.js:107-113 | The number of filled stars is the rating clamped into 0..10. |
| MainSection.MainLayout | js/main.js:80-191 | `createMain` is the function `MainSection.CreateMain`. The main element holds one container. Inside it: the main-content wrapper, the genre label when a genre is set, and the slider last when slides are configured. The wrapper holds the content block, then the play link when a trailer is set. |
| MainSection.ContentOrder | js/main.js:96-157 | The content block holds, in order: the rating block (only when rated, with the stars and "R/10"), the title heading, the description (only when non-empty) and the trailer button (only with a trailer). |
| MainSection.TrailerLinksAgree | js/main.js:133-157 | With a trailer, the play link follows the content block and points where the trailer button points. It wraps a hidden icon. |
| MainSection.RatingScenario | js/main.js:96-123 | With title "X" and rating 8 only, the content holds the rating block and the heading "X". The block shows 8 filled stars out of 10 and "8/10". |
| MainSection.CaptionOrder | js/main.js:175-183 | The caption lines are the subtitle, then the title. Each is present exactly when truthy. There is a caption exactly when one of the two is present. |
| MainSection.CaptionLayout | js/main.js:176-182 | The caption holds one paragraph per caption line, in order, with the line's class and text. |
| MainSection.SlideAltText | js/main.js:170 | For fields without white space at their ends, the alt text is the title and the subtitle joined by one space. A missing part is left out together with the space. |
| MainSection.SlideLayout | js/main.js:165-186 | A slide is a link to "#" around one card. The card holds the image with its source and alt text, then the caption exactly when the slide has one. |
| MainSection.MainQuery | js/main.js:80-191 | A query of the main section finds the ten stars (only when rated) and, by the slide class, the slides in configuration order. |
| MainSection.StarsShown | js/main.js:96-117 | The main section shows ten stars when rated and none otherwise. The filled count is the clamped rating. |
| MainSection.SlidesShown | js/main.js:159-191 | There is one slide per slider entry, in order. Each links to "#" and shows the entry's image and alt text. Every element found carries the `swiper-slide` class. |
| JsText.TrimStartSpec | js/main.js:170 | Leading white space is removed. What remains is a suffix and does not start with white space. |
| JsText.TrimEndSpec | js/main.js:170 | Trailing white space is removed. What remains is a prefix and does not end with white space. |
| JsText.TrimSpec | js/main.js:170 | For `JsText.Trim`, the model of `String.prototype.trim`: the trimmed text neither starts nor ends with white space. It is the input less some white space at each end. |
| JsText.TrimTidy | js/main.js:170 | Trimming changes a string exactly when the string starts or ends with white space. Trimming twice is trimming once. |
| JsText.TrimJoin | js/main.js:170 | Joining two tidy parts with one space and trimming drops the space exactly when a part is empty. |
| JsText.LastIndexOfSpec | js/main.js:222 | For `JsText.LastIndexOf`: the index is -1 or a position holding the character, with no later occurrence. It is -1 exactly when the character does not occur. |
| JsText.Substring | js/main.js:223 | A start within the string gives the suffix from there. A start past the end gives "". A negative start counts as 0. |
| JsText.NatToString | js/main.js:104 | The decimal text is non-empty, all digits and without a leading zero. |
| JsText.NatToStringRoundTrip | js/main.js:104 | The decimal text reads back as the number. |
| JsText.IntToStringRoundTrip | js/main.js:104 | The text of an integer starts with "-" exactly when the integer is negative, and reads back as the integer. |
| Settings.OrEmpty | js/main.js:218-219 | `field \|\| ""` is the empty string exactly when the field is not truthy. Otherwise it is the field. |
| Page.ExtensionSpec | js/main.js:222-223 | For `Page.Extension`: the extension holds no dot and ends the path. It is the whole path exactly when the path has no dot. Otherwise a dot precedes it. |
| Page.FaviconTypeOf | js/main.js:221-228 | For `Page.FaviconType`: a path ending in a dot and a dot-free extension gets "image/" + extension, except that "svg" becomes "svg-xml". |
| Page.FaviconTypeWithoutDot | js/main.js:222-228 | A path without a dot is taken whole as the extension. |
| Page.SvgFavicon | js/main.js:228 | Any ".svg" icon is announced as "image/svg-xml". |
| Page.PngFavicon | js/main.js:228 | Any ".png" icon, such as the configured logo, is announced as "image/png". |
| Page.IcoFavicon | js/main.js:228 | Any ".ico" icon is announced as "image/ico": an extension other than "svg" passes through unchanged. |
| Page.CreateFavicon | js/main.js:222-229 | The link built from lastIndexOf and substring is the favicon link with rel "icon", the path and the derived type. |
| Page.MovieConstructor | js/main.js:214-246 | After the call, the following hold. The mount element has "body-app" added. Its colours are the truthy config values or "". Its background image is `url("…")` or "". The title is set. The head has gained the favicon link exactly when a favicon is configured. The mount's children have gained the header, then the main section, each exactly when configured. |

## Left out

- The carousel library is not modelled. The source constructs a `Swiper` over the slider (`js/main.js:193-208`) with these constant options:
  - loop on;
  - the arrow as the next button;
  - breakpoints 320 (one slide, gap 20) and 541 (two slides, gap 40).

  The library's code is not part of this model, and its behaviour happens after construction.
- The real DOM and browser are not modelled: `document.createElement`, `querySelector`, style objects, event dispatch and rendering. The model uses a value tree, a `Document` with a map from selectors to mount elements, and an explicit `Click` method.
- `Page.MovieConstructor` requires that the selector finds an element. In the source, a miss makes `app` null, and the next line throws. The model does not carry that error path.
- The caption's `innerHTML` is modelled as its parsed paragraphs, one per caption line.
  - The white-space text nodes between the two template parts are not modelled.
  - HTML parsing of the title and the subtitle is not modelled: their text is taken literally.
- Integer ratings are unbounded `int`s. JavaScript's 2^53 precision limit and the exponent form it prints for values of magnitude 10^21 or more are not modelled.
- Ratings are integers. Fractional, `NaN` or non-numeric ratings, and how JavaScript would print them, are not modelled.
- `Header.MenuToggle.Click` acts on the two class lists held by `MenuToggle`. It does not update the header value returned by `CreateHeader`, because the model's tree is an immutable value.
- `classList.add` throws for an empty token or one containing white space. The model does not carry that error, because every class name in the source is a non-empty literal without spaces.
- The `subColor` configuration field is not modelled, because the builder never reads it.
- `Page.WitcherOptions` shortens the description text of the hard-coded configuration. The length of that string plays no part in any property.
- The assemblers use `Dom.El`, which requires all-different class names and is equal to `Build` by `Dom.ElIsBuild`. Every literal class list in the source meets this requirement.
- The call `movieConstructor(".app", {...})` at load time is modelled as `Page.WitcherPage`.

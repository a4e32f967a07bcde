/**
 * A detached element tree standing for the DOM nodes the page builder
 * creates, with the two class-list operations it uses (`classList.add` and
 * `classList.toggle`), the element builder `getElement`, and a query that
 * finds the elements carrying a class, in document order.
 */
module Dom {
  import opened Wrappers

  /** A property value: the source assigns strings and one boolean (`ariaHidden`). */
  datatype Value = Text(text: string) | Flag(flag: bool)

  /** Properties assigned directly on an element (`element[name] = value`). */
  type Props = map<string, Value>

  datatype Element = Element(tag: string, classes: seq<string>, props: Props, children: seq<Element>)

  /** No token occurs twice: a class list is an ordered set. */
  predicate Distinct(list: seq<string>) {
    forall i, j :: 0 <= i < j < |list| ==> list[i] != list[j]
  }

  /** `classList.add(token)`: the token is appended unless it is already there. */
  function ClassListAdd(list: seq<string>, token: string): seq<string> {
    if token in list then list else list + [token]
  }

  /**
   * After adding, the list holds the old tokens and the new one, starts with
   * the old list unchanged, still has no token twice, and adding the same
   * token again changes nothing.
   */
  lemma ClassListAddSpec(list: seq<string>, token: string)
    ensures var r := ClassListAdd(list, token);
      && (forall t :: t in r <==> t in list || t == token)
      && |list| <= |r| <= |list| + 1 && r[..|list|] == list
      && (Distinct(list) ==> Distinct(r))
      && ClassListAdd(r, token) == r
  {
  }

  /** `classList.add(...tokens)`: each token is added in turn. */
  function ClassListAddAll(list: seq<string>, tokens: seq<string>): (r: seq<string>)
    decreases tokens
  {
    if tokens == [] then list else ClassListAddAll(ClassListAdd(list, tokens[0]), tokens[1..])
  }

  /**
   * After adding, the list holds exactly the old tokens and the added ones,
   * starts with the old list unchanged, and still has no token twice.
   */
  lemma {:induction false} ClassListAddAllSpec(list: seq<string>, tokens: seq<string>)
    ensures var r := ClassListAddAll(list, tokens);
      && (forall t :: t in r <==> t in list || t in tokens)
      && |list| <= |r| && r[..|list|] == list
      && (Distinct(list) ==> Distinct(r))
    decreases tokens
  {
    if tokens != [] {
      var next := ClassListAdd(list, tokens[0]);
      ClassListAddSpec(list, tokens[0]);
      ClassListAddAllSpec(next, tokens[1..]);
      var r := ClassListAddAll(list, tokens);
      assert r[..|next|][..|list|] == r[..|list|];
      assert forall t :: t in tokens <==> t == tokens[0] || t in tokens[1..];
    }
  }

  /** Adding tokens that are all new, and new to each other, appends them as they are. */
  lemma {:induction false} ClassListAddAllFresh(list: seq<string>, tokens: seq<string>)
    requires Distinct(list + tokens)
    ensures ClassListAddAll(list, tokens) == list + tokens
    decreases tokens
  {
    if tokens != [] {
      assert tokens[0] == (list + tokens)[|list|];
      assert forall k :: 0 <= k < |list| ==> list[k] == (list + tokens)[k];
      assert tokens[0] !in list;
      assert list + [tokens[0]] + tokens[1..] == list + tokens;
      ClassListAddAllFresh(list + [tokens[0]], tokens[1..]);
    }
  }

  /** The list with every occurrence of `token` removed, the rest in order. */
  function RemoveToken(list: seq<string>, token: string): (r: seq<string>)
    ensures forall t :: t in r <==> t in list && t != token
    ensures |r| <= |list|
  {
    if list == [] then []
    else (if list[0] == token then [] else [list[0]]) + RemoveToken(list[1..], token)
  }

  /**
   * `classList.toggle(token)`: removes the token when it is present,
   * otherwise appends it.
   */
  function ClassListToggle(list: seq<string>, token: string): (r: seq<string>)
    ensures token in r <==> token !in list
    ensures forall t :: t != token ==> (t in r <==> t in list)
  {
    if token in list then RemoveToken(list, token) else list + [token]
  }

  lemma {:induction false} RemoveAppended(list: seq<string>, token: string)
    requires token !in list
    ensures RemoveToken(list + [token], token) == list
  {
    if list == [] {
      assert [token][1..] == [];
    } else {
      assert (list + [token])[1..] == list[1..] + [token];
      RemoveAppended(list[1..], token);
    }
  }

  /** Toggling a token that is absent, and then toggling it again, restores the list exactly. */
  lemma ToggleTwice(list: seq<string>, token: string)
    requires token !in list
    ensures ClassListToggle(list, token) == list + [token]
    ensures ClassListToggle(ClassListToggle(list, token), token) == list
  {
    RemoveAppended(list, token);
  }

  /**
   * `getElement(tagName, classNames, attributes)`: a new element with no
   * children, the class names added to an empty class list and the
   * attributes assigned as properties.
   */
  function Build(tagName: string, classNames: Option<seq<string>>, attributes: Option<Props>): Element {
    Element(tagName, ClassListAddAll([], classNames.GetOr([])), attributes.GetOr(map[]), [])
  }

  /**
   * The builder as the assemblers call it, with class names that are all
   * different: the class list is then the names as given (see `ElIsBuild`).
   */
  function El(tagName: string, classNames: seq<string>, attributes: Props): Element
    requires Distinct(classNames)
  {
    Element(tagName, classNames, attributes, [])
  }

  lemma ElIsBuild(tagName: string, classNames: seq<string>, attributes: Props)
    requires Distinct(classNames)
    ensures El(tagName, classNames, attributes) == Build(tagName, Some(classNames), Some(attributes))
  {
    assert [] + classNames == classNames;
    ClassListAddAllFresh([], classNames);
  }

  /** `parent.append(...kids)`: the kids go after the existing children, in order. */
  function Append(parent: Element, kids: seq<Element>): Element {
    parent.(children := parent.children + kids)
  }

  /**
   * The element builder as the source runs it: the class names are added in
   * one call, and the `for...in` loop assigns the attributes one property at
   * a time.
   */
  method GetElement(tagName: string, classNames: Option<seq<string>>, attributes: Option<Props>)
    returns (element: Element)
    ensures element == Build(tagName, classNames, attributes)
    ensures element.children == []
    ensures forall name :: name in element.props <==> attributes.Some? && name in attributes.value
  {
    element := Element(tagName, [], map[], []);
    if classNames.Some? {
      element := element.(classes := ClassListAddAll(element.classes, classNames.value));
    }
    if attributes.Some? {
      var attrs := attributes.value;
      var pending := attrs.Keys;
      while pending != {}
        invariant pending <= attrs.Keys
        invariant element.tag == tagName && element.children == []
        invariant element.classes == ClassListAddAll([], classNames.GetOr([]))
        invariant element.props == map name | name in attrs.Keys - pending :: attrs[name]
        decreases pending
      {
        var name :| name in pending;
        element := element.(props := element.props[name := attrs[name]]);
        pending := pending - {name};
      }
      assert attrs.Keys - pending == attrs.Keys;
    }
  }

  /**
   * The elements of the tree rooted at `e`, the root included, that carry
   * the class `cls`, in document (pre-)order: what
   * `querySelectorAll("." + cls)` finds below a parent of `e`.
   */
  function Select(e: Element, cls: string): seq<Element> {
    (if cls in e.classes then [e] else []) + SelectAll(e.children, cls)
  }

  function SelectAll(es: seq<Element>, cls: string): seq<Element> {
    if es == [] then [] else Select(es[0], cls) + SelectAll(es[1..], cls)
  }

  /** Querying a list of siblings in two parts is querying each part. */
  lemma {:induction false} SelectAllConcat(a: seq<Element>, b: seq<Element>, cls: string)
    ensures SelectAll(a + b, cls) == SelectAll(a, cls) + SelectAll(b, cls)
  {
    if a == [] {
      assert a + b == b;
    } else {
      assert (a + b)[0] == a[0];
      assert (a + b)[1..] == a[1..] + b;
      SelectAllConcat(a[1..], b, cls);
    }
  }

  lemma SelectSingle(e: Element, cls: string)
    ensures SelectAll([e], cls) == Select(e, cls)
  {
    assert [e][1..] == [];
  }

  /** An element without the class contributes only what its children do. */
  lemma SelectUnmarked(e: Element, cls: string)
    requires cls !in e.classes
    ensures Select(e, cls) == SelectAll(e.children, cls)
  {
  }

  /** A freshly built parent without the class contributes only what is appended to it. */
  lemma SelectThrough(parent: Element, kids: seq<Element>, cls: string)
    requires parent.children == [] && cls !in parent.classes
    ensures Select(Append(parent, kids), cls) == SelectAll(kids, cls)
    ensures SelectAll([Append(parent, kids)], cls) == SelectAll(kids, cls)
  {
    assert Append(parent, kids).children == kids;
    SelectSingle(Append(parent, kids), cls);
  }

  /** Childless elements none of which carries the class yield nothing. */
  lemma {:induction false} SelectLeavesWithout(es: seq<Element>, cls: string)
    requires forall i :: 0 <= i < |es| ==> es[i].children == [] && cls !in es[i].classes
    ensures SelectAll(es, cls) == []
  {
    if es != [] {
      SelectLeavesWithout(es[1..], cls);
    }
  }

  /** Childless elements that all carry just the class `c` are all found by `c`, and none by another class. */
  lemma {:induction false} SelectUniformLeaves(es: seq<Element>, c: string, cls: string)
    requires forall i :: 0 <= i < |es| ==> es[i].children == [] && es[i].classes == [c]
    ensures SelectAll(es, cls) == if cls == c then es else []
  {
    if es != [] {
      SelectUniformLeaves(es[1..], c, cls);
      assert Select(es[0], cls) == if cls == c then [es[0]] else [];
      assert es == [es[0]] + es[1..];
    }
  }

  /** Siblings each of which is found by the class exactly when `found`, and contributes nothing below it. */
  lemma {:induction false} SelectAllEach(es: seq<Element>, cls: string, found: bool)
    requires forall i :: 0 <= i < |es| ==> Select(es[i], cls) == if found then [es[i]] else []
    ensures SelectAll(es, cls) == if found then es else []
  {
    if es != [] {
      SelectAllEach(es[1..], cls, found);
      assert es == [es[0]] + es[1..];
    }
  }

  /** Every element found carries the class. */
  lemma {:induction false} SelectFindsClass(e: Element, cls: string)
    ensures forall x :: x in Select(e, cls) ==> cls in x.classes
  {
    SelectAllFindsClass(e.children, cls);
  }

  lemma {:induction false} SelectAllFindsClass(es: seq<Element>, cls: string)
    ensures forall x :: x in SelectAll(es, cls) ==> cls in x.classes
  {
    if es != [] {
      SelectFindsClass(es[0], cls);
      SelectAllFindsClass(es[1..], cls);
    }
  }
}

/** The browser seen from the bots: every Playwright query is answered by an
    oracle.  A page at one step of a request is a `View`, a function from a
    selector to what `page.query_selector(selector)` (or a locator's
    `wait_for`) produces there: an element, nothing, or an exception. */
module Oracle {

  datatype Option<T> = None | Some(value: T)

  type Selector = string

  /** What `element.get_attribute(name)` gives: the attribute's text, `None`
      when the element has no such attribute, or an exception. */
  datatype Attr = NoAttr | AttrValue(value: string) | AttrThrows

  /** An element handle.  `innerText` is `None` when `inner_text()` raises;
      `actionsSucceed` says whether the interactions the bots perform on it
      (click, fill, type, scroll, hover) complete without raising. */
  datatype Element = Element(
    handle: nat,
    attrs: map<string, Attr>,
    innerText: Option<string>,
    actionsSucceed: bool)
  {
    function Attribute(name: string): Attr {
      if name in attrs then attrs[name] else NoAttr
    }
  }

  /** One query: an element (a truthy handle), `None`, or a raised exception
      (a timeout of `wait_for_selector` included). */
  datatype Probe = Found(element: Element) | Absent | Throws

  /** The page as one step of a request sees it. */
  type View = Selector -> Probe

  /** Python truthiness of an optional string: present and non-empty. */
  predicate Truthy(a: Attr) {
    a.AttrValue? && a.value != ""
  }
}

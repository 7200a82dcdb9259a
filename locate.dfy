/** Ranked-selector resolution as bot.py and bot_auto_auth.py write it: query
    each selector of a list in order with `page.query_selector`, take the first
    truthy handle, and treat a raising query exactly like `None`. */
module Locate {
  import opened Oracle
  import opened Strings
  import opened Ranked

  /** The hit test of every selector loop: the query produced an element.
      `Absent` and `Throws` both fail it, because the loops catch the
      exception and `continue`. */
  function Present(view: View): Selector -> bool {
    sel => view(sel).Found?
  }

  /** The element the first present selector of `sels` yields, if any. */
  function FirstElement(view: View, sels: seq<Selector>): (r: Option<Element>)
    ensures r.Some? <==> exists i | 0 <= i < |sels| :: view(sels[i]).Found?
    ensures r.Some? ==> exists i | 0 <= i < |sels| ::
      view(sels[i]) == Found(r.value) && forall j | 0 <= j < i :: !view(sels[j]).Found?
  {
    match FirstHit(sels, Present(view))
    case Some(i) => Some(view(sels[i]).element)
    case None => None
  }

  /** One `for selector in selectors: ... if element: break` loop. */
  method QuerySelectors(view: View, sels: seq<Selector>) returns (found: Option<Element>, tried: seq<Selector>)
    ensures found == FirstElement(view, sels)
    ensures tried == Consulted(sels, FirstHit(sels, Present(view)))
  {
    var k;
    k, tried := FirstWins(sels, Present(view));
    found := if k.Some? then Some(view(sels[k.value]).element) else None;
  }

  /** The authentication-indicator scan: the flag is set exactly when some
      indicator is on the page, and scanning stops at the first one. */
  method CheckAuthIndicators(view: View, indicators: seq<Selector>) returns (isAuthenticated: bool, tried: seq<Selector>)
    ensures isAuthenticated <==> exists i | 0 <= i < |indicators| :: view(indicators[i]).Found?
    ensures tried == Consulted(indicators, FirstHit(indicators, Present(view)))
  {
    var element;
    element, tried := QuerySelectors(view, indicators);
    isAuthenticated := element.Some?;
  }

  /** A field looked up by its exact CSS path first and by the alternatives
      only when that lookup raises or yields `None`; running out of
      alternatives is the "not found by any means" exception, `None` here. */
  method ResolveField(view: View, primary: Selector, alternatives: seq<Selector>)
    returns (field: Option<Element>, tried: seq<Selector>)
    ensures field == FirstElement(view, [primary] + alternatives)
    ensures tried == Consulted([primary] + alternatives, FirstHit([primary] + alternatives, Present(view)))
  {
    FirstHitAppend([primary], alternatives, Present(view));
    if view(primary).Found? {
      field, tried := Some(view(primary).element), [primary];
    } else {
      var rest;
      field, rest := QuerySelectors(view, alternatives);
      tried := [primary] + rest;
      var k := FirstHit(alternatives, Present(view));
      if k.Some? {
        assert ([primary] + alternatives)[..k.value + 2] == [primary] + alternatives[..k.value + 1];
      }
    }
  }

  /** First match wins across the two stages: a present primary selector
      decides the field whatever the alternatives hold, and an absent one
      hands the decision to the alternatives alone. */
  lemma PrimaryBeforeAlternatives(view: View, primary: Selector, alternatives: seq<Selector>)
    ensures view(primary).Found? ==>
      FirstElement(view, [primary] + alternatives) == Some(view(primary).element)
    ensures !view(primary).Found? ==>
      FirstElement(view, [primary] + alternatives) == FirstElement(view, alternatives)
  {
    FirstHitAppend([primary], alternatives, Present(view));
    var k := FirstHit(alternatives, Present(view));
    if !view(primary).Found? && k.Some? {
      assert ([primary] + alternatives)[k.value + 1] == alternatives[k.value];
    }
  }

  /** The words whose presence in the lower-cased URL marks a login page. */
  const LoginWords: seq<string> := ["login", "signin", "auth"]

  /** The login-redirect test on the page URL after navigation. */
  predicate IsLoginRedirect(url: string) {
    var u := Lower(url);
    Contains(u, "login") || Contains(u, "signin") || Contains(u, "auth")
  }

  /** The stretch of `url` at position `p` lower-cases to `w`. */
  predicate WordAt(url: string, w: string, p: int) {
    0 <= p && p + |w| <= |url| && Lower(url[p..p + |w|]) == w
  }

  /** The redirect test accepts a URL exactly when some stretch of it
      lower-cases to one of the three words: the word may sit anywhere in
      the URL, in any mix of letter cases. */
  lemma LoginRedirectIffWordAnywhere(url: string)
    ensures IsLoginRedirect(url) <==>
      exists w, p | w in LoginWords :: WordAt(url, w, p)
  {
    var u := Lower(url);
    if IsLoginRedirect(url) {
      var w := if Contains(u, "login") then "login" else if Contains(u, "signin") then "signin" else "auth";
      assert w in LoginWords && Contains(u, w);
      var p :| 0 <= p <= |u| - |w| && OccursAt(u, w, p);
      LowerSlice(url, p, p + |w|);
      assert w in LoginWords && WordAt(url, w, p);
    }
    if exists w, p | w in LoginWords :: WordAt(url, w, p) {
      var w, p :| w in LoginWords && WordAt(url, w, p);
      LowerSlice(url, p, p + |w|);
      assert OccursAt(u, w, p);
      assert Contains(u, w);
      assert w == LoginWords[0] || w == LoginWords[1] || w == LoginWords[2];
    }
  }

  /** Which of `sels` a loop that clicks every found link would try to click. */
  function FoundAmong(view: View, sels: seq<Selector>): (r: seq<Selector>)
    ensures forall j | 0 <= j < |r| :: view(r[j]).Found?
    ensures |r| <= |sels|
  {
    if sels == [] then []
    else
      var last := sels[|sels| - 1];
      FoundAmong(view, sels[..|sels| - 1]) + (if view(last).Found? then [last] else [])
  }

  /** A link that is found and whose click goes through. */
  function Followable(view: View): Selector -> bool {
    s => view(s).Found? && view(s).element.actionsSucceed
  }

  /** The links the workspace-link loop tries to click: the found ones, in
      order, up to and including the first whose click goes through. */
  function LinkClicks(view: View, links: seq<Selector>): seq<Selector> {
    var k := FirstHit(links, Followable(view));
    FoundAmong(view, if k.Some? then links[..k.value + 1] else links)
  }

  /** The workspace-link loop of the login-redirect branch: a found link is
      clicked and ends the loop, but a click that raises is caught like a
      failed query and the next link is tried.  `followed` is the link whose
      click went through; `clicks` lists every link a click was tried on. */
  method FollowWorkspaceLink(view: View, links: seq<Selector>) returns (followed: Option<nat>, clicks: seq<Selector>)
    ensures followed == FirstHit(links, Followable(view))
    ensures clicks == LinkClicks(view, links)
    ensures followed.Some? ==> followed.value < |links|
    ensures followed.Some? ==> view(links[followed.value]).Found? && view(links[followed.value]).element.actionsSucceed
    ensures followed.Some? ==> forall j | 0 <= j < followed.value ::
      !view(links[j]).Found? || !view(links[j]).element.actionsSucceed
    ensures followed.None? ==> forall j | 0 <= j < |links| ::
      !view(links[j]).Found? || !view(links[j]).element.actionsSucceed
    ensures clicks == FoundAmong(view, if followed.Some? then links[..followed.value + 1] else links)
    ensures forall j | 0 <= j < |clicks| :: view(clicks[j]).Found?
    ensures followed.Some? ==> clicks != [] && clicks[|clicks| - 1] == links[followed.value]
    ensures forall j | 0 <= j < |clicks| - (if followed.Some? then 1 else 0) ::
      !view(clicks[j]).element.actionsSucceed
  {
    followed, clicks := None, [];
    var i := 0;
    while i < |links|
      invariant 0 <= i <= |links|
      invariant clicks == FoundAmong(view, links[..i])
      invariant forall j | 0 <= j < i :: !view(links[j]).Found? || !view(links[j]).element.actionsSucceed
      invariant forall j | 0 <= j < |clicks| :: !view(clicks[j]).element.actionsSucceed
    {
      assert links[..i + 1][..i] == links[..i];
      var probe := view(links[i]);
      if probe.Found? {
        clicks := clicks + [links[i]];
        if probe.element.actionsSucceed {
          followed := Some(i);
          assert Followable(view)(links[i]);
          assert forall j | 0 <= j < i :: !Followable(view)(links[j]);
          return;
        }
      }
      i := i + 1;
    }
    assert links[..i] == links;
    assert forall j | 0 <= j < |links| :: !Followable(view)(links[j]);
  }
}

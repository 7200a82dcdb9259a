/** bot_auto_auth.py: the bot that makes sure of the login before each
    request.  `ensure_authentication` looks for signs of a login on the home
    page, then for login buttons, and, when it finds neither, waits for a
    manual login on the console and looks again.  Its answer is only logged:
    the request goes on either way. */
module AutoAuth {
  import opened Oracle
  import opened Strings
  import opened Ranked
  import opened Locate
  import opened ResultUrl
  import opened Generation

  const AuthIndicators: seq<Selector> := [
    "a[href*=\"workspace\"]", "a[href*=\"profile\"]", "button:has-text(\"Logout\")", ".user-menu",
    "[data-testid=\"user-menu\"]", "a[href*=\"dashboard\"]", "a[href*=\"account\"]"]

  const LoginElements: seq<Selector> := [
    "a:has-text(\"Login\")", "a:has-text(\"Sign In\")", "button:has-text(\"Login\")", "button:has-text(\"Sign In\")",
    ".login-button", ".signin-button", "a[href*=\"login\"]", "a[href*=\"signin\"]"]

  const WorkspaceLinks: seq<Selector> := [
    "a[href*=\"workspace\"]", "a[href*=\"image-generator\"]", "a:has-text(\"Workspace\")", "a:has-text(\"Generator\")"]

  const PromptAlternatives: seq<Selector> := [
    "textarea", "div.p-4.pb-12 textarea", "input[type=\"text\"]", "[contenteditable=\"true\"]",
    "input[placeholder*=\"prompt\"]", "input[placeholder*=\"describe\"]"]

  const GenerateAlternatives: seq<Selector> := [
    "div.absolute.bottom-3.right-4 button", "button.bg-gradient-to-r.from-blue-600", "button:has-text(\"Generate\")",
    "button:has-text(\"Create\")", "button:has-text(\"Submit\")", "button[type=\"submit\"]", ".generate-btn", ".create-btn"]

  const ResultSelectors: seq<Selector> := [
    "a[href*=\"image\"]", "a[href*=\"jpg\"]", "a[href*=\"png\"]", "a[href*=\"gif\"]", "a[href*=\"webp\"]",
    "a[href*=\"result\"]", "a[href*=\"download\"]", ".result-link", ".download-link", ".image-link",
    "[data-result-url]", "[data-image-url]"]

  /** What `ensure_authentication` meets: whether opening the home page
      (with its pause) goes through; the home page; whether the console
      prompt, the reload and the pause after it go through; and the page the
      indicators are looked for on again. */
  datatype AuthPage = AuthPage(homeOk: bool, home: View, manualWaitOk: bool, after: View)

  /** A login element counts when it is found and its text can be read;
      reading the text is inside the loop's `try`, so an element whose text
      raises is passed over. */
  function LoginVisible(view: View): Selector -> bool {
    sel => view(sel).Found? && view(sel).element.innerText.Some?
  }

  predicate AnyIndicator(view: View) {
    exists i | 0 <= i < |AuthIndicators| :: view(AuthIndicators[i]).Found?
  }

  predicate AnyLoginElement(view: View) {
    exists i | 0 <= i < |LoginElements| :: LoginVisible(view)(LoginElements[i])
  }

  /** The answer of `ensure_authentication`. */
  function Authenticated(page: AuthPage): bool {
    && page.homeOk
    && (|| AnyIndicator(page.home)
        || (!AnyLoginElement(page.home) && page.manualWaitOk && AnyIndicator(page.after)))
  }

  /** Whether `ensure_authentication` stops to wait for a manual login. */
  predicate WaitsForManualLogin(page: AuthPage) {
    page.homeOk && !AnyIndicator(page.home) && !AnyLoginElement(page.home)
  }

  /** The decision tree: an indicator on the home page answers yes at once;
      a visible login element answers no without waiting; otherwise the
      answer is whether an indicator shows after the manual wait, and no when
      the wait itself fails.  Nothing in it raises. */
  lemma AuthenticationDecision(page: AuthPage)
    ensures page.homeOk && AnyIndicator(page.home) ==> Authenticated(page) && !WaitsForManualLogin(page)
    ensures page.homeOk && !AnyIndicator(page.home) && AnyLoginElement(page.home) ==>
      !Authenticated(page) && !WaitsForManualLogin(page)
    ensures WaitsForManualLogin(page) ==>
      (Authenticated(page) <==> page.manualWaitOk && AnyIndicator(page.after))
    ensures !page.homeOk ==> !Authenticated(page) && !WaitsForManualLogin(page)
  {
  }

  /** `ensure_authentication` as written: the indicator loop, the login
      element loop with its `login_found` flag, the manual wait and the
      second indicator loop with its early `return True`. */
  method EnsureAuthentication(page: AuthPage) returns (ok: bool, waited: bool)
    ensures ok == Authenticated(page)
    ensures waited == WaitsForManualLogin(page)
  {
    if !page.homeOk {
      return false, false;
    }
    var isAuthenticated, _ := CheckAuthIndicators(page.home, AuthIndicators);
    assert isAuthenticated == AnyIndicator(page.home);
    if isAuthenticated {
      return true, false;
    }
    var loginFound := FindLoginElement(page.home);
    if loginFound {
      return false, false;
    }
    waited := true;
    if !page.manualWaitOk {
      return false, waited;
    }
    // the second indicator loop returns True at its first hit
    var recheckTried;
    ok, recheckTried := CheckAuthIndicators(page.after, AuthIndicators);
    assert ok == AnyIndicator(page.after);
  }

  /** The login-element loop with its `login_found` flag. */
  method FindLoginElement(view: View) returns (loginFound: bool)
    ensures loginFound == AnyLoginElement(view)
  {
    loginFound := false;
    var i := 0;
    while i < |LoginElements|
      invariant 0 <= i <= |LoginElements|
      invariant forall j | 0 <= j < i :: !LoginVisible(view)(LoginElements[j])
    {
      var probe := view(LoginElements[i]);
      if probe.Found? && probe.element.innerText.Some? {
        assert LoginVisible(view)(LoginElements[i]);
        loginFound := true;
        return;
      }
      i := i + 1;
    }
  }

  /** Everything one request meets (see `Bot.Site`), with the
      authentication pages in place of the home page and no V1 step. */
  datatype Site = Site(
    contextReady: bool,
    pageOk: bool,
    closeOk: bool,
    auth: AuthPage,
    generatorOk: bool,
    url: string,
    landing: View,
    form: View,
    controls: View,
    results: View,
    text: PageText)

  /** What `process_makefilm_request` returns or raises.  The `finally`
      clause closes an opened page, and a close that raises replaces
      whatever the body returned or raised. */
  function RequestOutcome(site: Site): Outcome {
    if !site.contextReady then Raised(NotInitialised)
    else if !site.pageOk || !site.closeOk then Raised(BrowserStepFailed)
    else AttemptOutcome(site)
  }

  /** What the body of the `try` returns or raises after
      `ensure_authentication`. */
  function AttemptOutcome(site: Site): Outcome {
    if !site.generatorOk then Raised(BrowserStepFailed)
    else match UseField(site.form, PromptSelector, PromptAlternatives, NoPromptField)
      case Some(f) => Raised(f)
      case None => Finish(site.controls, GenerateAlternatives, site.results, ResultSelectors, site.text)
  }

  /** The request in the order the source performs it. */
  method ProcessRequest(site: Site) returns (run: Run, authOk: Option<bool>)
    ensures run.outcome == RequestOutcome(site)
    ensures run.pageOpened <==> site.contextReady && site.pageOk
    ensures run.pageClosed <==> run.pageOpened && site.closeOk
    ensures authOk.Some? <==> run.pageOpened
    ensures authOk.Some? ==> authOk.value == Authenticated(site.auth)
  {
    if !site.contextReady {
      return Run(Raised(NotInitialised), false, false), None;
    }
    if !site.pageOk {
      return Run(Raised(BrowserStepFailed), false, false), None;
    }
    var ok, _ := EnsureAuthentication(site.auth);
    authOk := Some(ok);
    var outcome, _ := Attempt(site);
    // `finally: if page: await page.close()`
    if !site.closeOk {
      return Run(Raised(BrowserStepFailed), true, false), authOk;
    }
    run := Run(outcome, true, true);
  }

  /** The body of the `try` after `ensure_authentication`. */
  method Attempt(site: Site) returns (outcome: Outcome, clicks: seq<Selector>)
    requires site.contextReady && site.pageOk
    ensures outcome == AttemptOutcome(site)
    ensures clicks == if site.generatorOk && IsLoginRedirect(site.url) then LinkClicks(site.landing, WorkspaceLinks) else []
  {
    if !site.generatorOk {
      return Raised(BrowserStepFailed), [];
    }
    clicks := [];
    if IsLoginRedirect(site.url) {
      var followed;
      followed, clicks := FollowWorkspaceLink(site.landing, WorkspaceLinks);
    }
    var failure := UseFieldStep(site.form, PromptSelector, PromptAlternatives, NoPromptField);
    if failure.Some? {
      return Raised(failure.value), clicks;
    }
    outcome := GenerateAndCollect(site.controls, GenerateAlternatives, site.results, ResultSelectors, site.text);
  }

  /** A failed authentication never aborts the request: the outcome is the
      same whatever the authentication pages show. */
  lemma AuthenticationNeverDecides(site: Site, auth: AuthPage)
    ensures RequestOutcome(site.(auth := auth)) == RequestOutcome(site)
  {
  }

  /** The request raises "not initialised" exactly when there is no context;
      a page that opened but does not close makes it raise whatever the
      body did; it raises for want of a Generate button exactly when the
      page opened and closed, the prompt went in and neither the exact path
      nor any of the eight alternatives is among the controls; and a
      returned URL is non-empty and does not start with "/". */
  lemma RequestFailures(site: Site)
    ensures RequestOutcome(site) == Raised(NotInitialised) <==> !site.contextReady
    ensures site.contextReady && site.pageOk && !site.closeOk ==> RequestOutcome(site) == Raised(BrowserStepFailed)
    ensures RequestOutcome(site) == Raised(NoGenerateButton) <==>
      && site.contextReady && site.pageOk && site.closeOk && site.generatorOk
      && UseField(site.form, PromptSelector, PromptAlternatives, NoPromptField).None?
      && !site.controls(GenerateSelector).Found?
      && forall i | 0 <= i < |GenerateAlternatives| :: !site.controls(GenerateAlternatives[i]).Found?
    ensures RequestOutcome(site).Delivered? ==>
      RequestOutcome(site).url != "" && !StartsWith(RequestOutcome(site).url, "/")
  {
    var r := RequestOutcome(site);
    var prompt := UseField(site.form, PromptSelector, PromptAlternatives, NoPromptField);
    UseFieldOutcome(site.controls, GenerateSelector, GenerateAlternatives, NoGenerateButton);
    FinishOutcome(site.controls, GenerateAlternatives, site.results, ResultSelectors, site.text);
    if site.contextReady && site.pageOk && site.closeOk && site.generatorOk && prompt.None? {
      assert r == Finish(site.controls, GenerateAlternatives, site.results, ResultSelectors, site.text);
    } else if site.contextReady && site.pageOk && site.closeOk && site.generatorOk {
      assert r == Raised(prompt.value);
    }
  }
}

/** bot.py: the cookie-based bot.  A request opens a page, checks the home
    page for signs of a login, opens the generator (following a workspace
    link when it lands on a login page), types the prompt, tries to pick the
    V1 model, reads the V1 button's state for the log, clicks Generate and
    extracts the result URL. */
module Bot {
  import opened Oracle
  import opened Strings
  import opened Ranked
  import opened Locate
  import opened ResultUrl
  import opened ModelPicker
  import opened Generation

  const AuthIndicators: seq<Selector> := [
    "a[href*=\"workspace\"]", "a[href*=\"profile\"]", "button:has-text(\"Logout\")", ".user-menu",
    "[data-testid=\"user-menu\"]", "a[href*=\"dashboard\"]", "a[href*=\"account\"]"]

  const WorkspaceLinks: seq<Selector> := [
    "a[href*=\"workspace\"]", "a[href*=\"image-generator\"]", "a:has-text(\"Workspace\")", "a:has-text(\"Generator\")"]

  const PromptAlternatives: seq<Selector> := [
    "textarea", "div.p-4.pb-12 textarea", "input[type=\"text\"]", "[contenteditable=\"true\"]", ".prompt-input", "#prompt"]

  const GenerateAlternatives: seq<Selector> := [
    "div.absolute.bottom-3.right-4 button", "button.bg-gradient-to-r.from-blue-600", "button:has-text(\"Generate\")",
    "button:has-text(\"Create\")", "button[type=\"submit\"]", ".btn-primary", "#submit-btn"]

  const ResultSelectors: seq<Selector> := [
    "a[href*=\"image\"]", "a[href*=\"photo\"]", "a[href*=\"jpg\"]", "a[href*=\"png\"]",
    "a[href*=\"result\"]", ".result-link", ".download-link", "[data-result-url]"]

  /** Everything one request meets, step by step: whether the global
      `context` exists; whether opening the page and the two navigations
      (with their pauses) go through; the home page the indicators are
      looked for on; the URL after the second navigation and the page the
      workspace links are looked for on; the form; the V1 button and which
      V1 strategies work; whether the diagnostic `page.evaluate` goes
      through; the controls; the results page and its text; and whether
      closing the page in the `finally` clause goes through. */
  datatype Site = Site(
    contextReady: bool,
    pageOk: bool,
    closeOk: bool,
    homeOk: bool,
    home: View,
    generatorOk: bool,
    url: string,
    landing: View,
    form: View,
    v1Button: V1Button,
    v1Works: Strategy -> bool,
    diagnosticsOk: bool,
    controls: View,
    results: View,
    text: PageText)

  /** What `process_makefilm_request` returns or raises.  The `finally`
      clause closes an opened page, and a close that raises replaces
      whatever the body returned or raised. */
  function RequestOutcome(site: Site): Outcome {
    if !site.contextReady then Raised(NotInitialised)
    else if !site.pageOk || !site.closeOk then Raised(BrowserStepFailed)
    else AttemptOutcome(site)
  }

  /** What the body of the `try` returns or raises once the page is open. */
  function AttemptOutcome(site: Site): Outcome {
    if !site.homeOk || !site.generatorOk then Raised(BrowserStepFailed)
    else match UseField(site.form, PromptSelector, PromptAlternatives, NoPromptField)
      case Some(f) => Raised(f)
      case None =>
        if !site.diagnosticsOk then Raised(BrowserStepFailed)
        else Finish(site.controls, GenerateAlternatives, site.results, ResultSelectors, site.text)
  }

  /** The request in the order the source performs it.  The authentication
      check, the login-redirect branch and the V1 selection run for their
      effect on the page only: each catches its own failures. */
  method ProcessRequest(site: Site) returns (run: Run)
    ensures run.outcome == RequestOutcome(site)
    ensures run.pageOpened <==> site.contextReady && site.pageOk
    ensures run.pageClosed <==> run.pageOpened && site.closeOk
  {
    if !site.contextReady {
      return Run(Raised(NotInitialised), false, false);
    }
    if !site.pageOk {
      return Run(Raised(BrowserStepFailed), false, false);
    }
    var outcome, _ := Attempt(site);
    // `finally: if page: await page.close()`
    if !site.closeOk {
      return Run(Raised(BrowserStepFailed), true, false);
    }
    run := Run(outcome, true, true);
  }

  /** The body of the `try` once the page is open. */
  method Attempt(site: Site) returns (outcome: Outcome, clicks: seq<Selector>)
    requires site.contextReady && site.pageOk
    ensures outcome == AttemptOutcome(site)
    ensures clicks == if site.homeOk && site.generatorOk && IsLoginRedirect(site.url) then LinkClicks(site.landing, WorkspaceLinks) else []
  {
    if !site.homeOk {
      return Raised(BrowserStepFailed), [];
    }
    var isAuthenticated, _ := CheckAuthIndicators(site.home, AuthIndicators);
    if !site.generatorOk {
      return Raised(BrowserStepFailed), [];
    }
    clicks := [];
    if IsLoginRedirect(site.url) {
      var followed;
      followed, clicks := FollowWorkspaceLink(site.landing, WorkspaceLinks);
    }
    var failure := UseFieldStep(site.form, PromptSelector, PromptAlternatives, NoPromptField);
    if failure.Some? {
      return Raised(failure.value), clicks;
    }
    var _ := SelectV1(site.v1Button, site.v1Works);
    if !site.diagnosticsOk {
      return Raised(BrowserStepFailed), clicks;
    }
    outcome := GenerateAndCollect(site.controls, GenerateAlternatives, site.results, ResultSelectors, site.text);
  }

  /** Whether the home page shows a login, whether the generator URL looks
      like a login page, which workspace link is followed and what the V1
      selection does never change what the request returns or raises. */
  lemma SideStepsNeverDecide(site: Site, home: View, url: string, landing: View, button: V1Button, works: Strategy -> bool)
    ensures RequestOutcome(site.(home := home, url := url, landing := landing, v1Button := button, v1Works := works))
      == RequestOutcome(site)
  {
  }

  /** The request raises "not initialised" exactly when there is no context;
      a page that opened but does not close makes it raise whatever the
      body did; it names the prompt field as missing exactly when the page
      opened and closed, both navigations went through, and neither the
      exact path nor any of the six alternatives is on the form; and a
      returned URL is non-empty and does not start with "/". */
  lemma RequestFailures(site: Site)
    ensures RequestOutcome(site) == Raised(NotInitialised) <==> !site.contextReady
    ensures site.contextReady && site.pageOk && !site.closeOk ==> RequestOutcome(site) == Raised(BrowserStepFailed)
    ensures RequestOutcome(site) == Raised(NoPromptField) <==>
      && site.contextReady && site.pageOk && site.closeOk && site.homeOk && site.generatorOk
      && !site.form(PromptSelector).Found?
      && forall i | 0 <= i < |PromptAlternatives| :: !site.form(PromptAlternatives[i]).Found?
    ensures RequestOutcome(site).Delivered? ==>
      RequestOutcome(site).url != "" && !StartsWith(RequestOutcome(site).url, "/")
  {
    UseFieldOutcome(site.form, PromptSelector, PromptAlternatives, NoPromptField);
    FinishOutcome(site.controls, GenerateAlternatives, site.results, ResultSelectors, site.text);
  }

  /** What the user is answered with. */
  datatype Reply =
    | AskForPrompt            // the "send a text prompt" answer
    | ResultLink(url: string) // the "image ready" edit with the link
    | ErrorReport(failure: Failure)

  /** `handle_text_message`: a message that strips to nothing is answered
      with a request for a prompt and starts no generation; otherwise the
      request's outcome is reported. */
  function HandleText(text: string, site: Site): Reply {
    if Strip(text) == "" then AskForPrompt
    else match RequestOutcome(site)
      case Delivered(url) => ResultLink(url)
      case Raised(f) => ErrorReport(f)
  }

  /** A blank message (nothing but whitespace) and only a blank message is
      answered with the request for a prompt; every other message is
      answered with the request's outcome. */
  lemma BlankMessageAsksForPrompt(text: string, site: Site)
    ensures HandleText(text, site) == AskForPrompt <==> forall i | 0 <= i < |text| :: IsSpace(text[i])
    ensures HandleText(text, site) != AskForPrompt ==>
      match RequestOutcome(site)
      case Delivered(url) => HandleText(text, site) == ResultLink(url)
      case Raised(f) => HandleText(text, site) == ErrorReport(f)
  {
    StripEmptyIffBlank(text);
  }

  /** The handler as the source writes it; `run` is the request it started,
      if any. */
  method HandleTextMessage(text: string, site: Site) returns (reply: Reply, run: Option<Run>)
    ensures reply == HandleText(text, site)
    ensures run.None? <==> Strip(text) == ""
    ensures run.Some? ==> (run.value.pageClosed <==> run.value.pageOpened && site.closeOk)
  {
    var userPrompt := Strip(text);
    if userPrompt == "" {
      return AskForPrompt, None;
    }
    var r := ProcessRequest(site);
    run := Some(r);
    match r.outcome {
      case Delivered(url) => reply := ResultLink(url);
      case Raised(f) => reply := ErrorReport(f);
    }
  }
}

/** The part of a request bot.py and bot_auto_auth.py share once the
    generator page is open: find the prompt field (exact CSS path, then
    alternatives) and type into it, find the Generate button the same way and
    click it, then extract the result URL. */
module Generation {
  import opened Oracle
  import opened Strings
  import opened Locate
  import opened ResultUrl

  /** `parts` with `sep` between each two of them, the way a CSS path and a
      class list are written. */
  function Join(parts: seq<string>, sep: string): string {
    if |parts| == 0 then ""
    else if |parts| == 1 then parts[0]
    else parts[0] + sep + Join(parts[1..], sep)
  }

  /** The steps of the exact CSS paths down to the generator panel, the same
      in all three bots. */
  const PanelPath: seq<string> := [
    "body", "div", "div", "div.flex-1.flex.flex-col", "main", "div", "div", "div", "div.px-8.pt-1", "div", "div"]

  /** The exact CSS path of the prompt textarea. */
  const PromptSelector: Selector := Join(PanelPath + ["div.p-4.pb-12", "textarea"], " > ")

  /** The classes of the Generate button in its exact CSS path, with the
      path's escaped colons, brackets and slashes. */
  const GenerateButtonClasses: seq<string> := [
    "inline-flex", "items-center", "justify-center", "gap-2", "whitespace-nowrap", "ring-offset-background",
    "focus-visible\\:outline-none", "focus-visible\\:ring-2", "focus-visible\\:ring-ring",
    "focus-visible\\:ring-offset-2", "disabled\\:pointer-events-none", "disabled\\:opacity-50",
    "\\[\\&_svg\\]\\:pointer-events-none", "\\[\\&_svg\\]\\:size-4", "\\[\\&_svg\\]\\:shrink-0",
    "hover\\:bg-primary\\/90", "py-2", "px-6", "h-8", "rounded-lg", "bg-gradient-to-r", "from-blue-600",
    "via-blue-500", "to-blue-400", "hover\\:from-blue-700", "hover\\:via-blue-600", "hover\\:to-blue-500",
    "disabled\\:from-gray-300", "disabled\\:to-gray-400", "disabled\\:cursor-not-allowed", "shadow-lg",
    "hover\\:shadow-xl", "transition-all", "duration-200", "text-white", "font-medium", "text-sm",
    "border-0"]

  /** The exact CSS path of the Generate button. */
  const GenerateSelector: Selector :=
    Join(PanelPath + ["div.absolute.bottom-3.right-4.flex.items-center.gap-3", "button." + Join(GenerateButtonClasses, ".")], " > ")

  /** Why a request raised. */
  datatype Failure =
    | NotInitialised     // the global `context` is None
    | BrowserStepFailed  // a Playwright call outside every local `try` raised
    | NoPromptField      // no prompt field "by any means"
    | NoGenerateButton   // no Generate button "by any means"
    | NoResultUrl        // no result link

  /** What `process_makefilm_request` does: return a URL or raise. */
  datatype Outcome = Delivered(url: string) | Raised(failure: Failure)

  /** A request as seen from outside: its outcome, whether a page was opened,
      and whether the `finally` clause closed it. */
  datatype Run = Run(outcome: Outcome, pageOpened: bool, pageClosed: bool)

  /** Resolving a field and then using it.  Using it (fill and type, or
      click) is outside every local `try`, so an element that refuses the
      interaction makes the request raise. */
  function UseField(view: View, primary: Selector, alternatives: seq<Selector>, missing: Failure): (r: Option<Failure>)
    ensures r.Some? ==> r.value == missing || r.value == BrowserStepFailed
  {
    match FirstElement(view, [primary] + alternatives)
    case None => Some(missing)
    case Some(el) => if el.actionsSucceed then None else Some(BrowserStepFailed)
  }

  /** The field step fails with `missing` exactly when neither the primary
      selector nor any alternative is on the page.  A present primary
      selector decides alone; otherwise success means the first present
      alternative accepted the interaction. */
  lemma UseFieldOutcome(view: View, primary: Selector, alternatives: seq<Selector>, missing: Failure)
    requires missing != BrowserStepFailed
    ensures UseField(view, primary, alternatives, missing) == Some(missing) <==>
      (!view(primary).Found? && forall i | 0 <= i < |alternatives| :: !view(alternatives[i]).Found?)
    ensures view(primary).Found? ==>
      (UseField(view, primary, alternatives, missing).None? <==> view(primary).element.actionsSucceed)
    ensures !view(primary).Found? && UseField(view, primary, alternatives, missing).None? ==>
      exists i | 0 <= i < |alternatives| ::
        && view(alternatives[i]).Found?
        && view(alternatives[i]).element.actionsSucceed
        && forall j | 0 <= j < i :: !view(alternatives[j]).Found?
  {
    PrimaryBeforeAlternatives(view, primary, alternatives);
    var all := [primary] + alternatives;
    assert forall i | 0 <= i < |alternatives| :: all[i + 1] == alternatives[i];
  }

  /** The field step as the source writes it: resolve, then interact. */
  method UseFieldStep(view: View, primary: Selector, alternatives: seq<Selector>, missing: Failure)
    returns (failure: Option<Failure>)
    ensures failure == UseField(view, primary, alternatives, missing)
  {
    var field, _ := ResolveField(view, primary, alternatives);
    if field.None? {
      failure := Some(missing);
    } else if !field.value.actionsSucceed {
      failure := Some(BrowserStepFailed);
    } else {
      failure := None;
    }
  }

  /** Clicking Generate and extracting the result, once the prompt is typed. */
  function Finish(controls: View, buttonAlternatives: seq<Selector>, results: View, resultSelectors: seq<Selector>, text: PageText): Outcome {
    match UseField(controls, GenerateSelector, buttonAlternatives, NoGenerateButton)
    case Some(f) => Raised(f)
    case None =>
      match ResultUrlOf(results, resultSelectors, text)
      case None => Raised(NoResultUrl)
      case Some(url) => Delivered(url)
  }

  /** The result is only looked for after a successful click, and a
      delivered URL is the extracted one: non-empty, without a leading "/", and taken from
      the first result selector that yields one, or else from the page text. */
  lemma FinishOutcome(controls: View, buttonAlternatives: seq<Selector>, results: View, resultSelectors: seq<Selector>, text: PageText)
    ensures var r := Finish(controls, buttonAlternatives, results, resultSelectors, text);
      && (r.Delivered? ==> UseField(controls, GenerateSelector, buttonAlternatives, NoGenerateButton).None?)
      && (r.Delivered? ==> r.url != "" && !StartsWith(r.url, "/"))
      && (r.Delivered? <==>
            (UseField(controls, GenerateSelector, buttonAlternatives, NoGenerateButton).None? &&
             ResultUrlOf(results, resultSelectors, text).Some?))
      && (r == Raised(NoGenerateButton) <==>
            UseField(controls, GenerateSelector, buttonAlternatives, NoGenerateButton) == Some(NoGenerateButton))
      && (r == Raised(NoResultUrl) <==>
            (UseField(controls, GenerateSelector, buttonAlternatives, NoGenerateButton).None? &&
             (forall i | 0 <= i < |resultSelectors| :: !Yields(results)(resultSelectors[i])) &&
             !(text.Matches? && |text.urls| > 0 && text.urls[0] != "")))
  {
  }

  /** Generate and collect, as the source writes it. */
  method GenerateAndCollect(controls: View, buttonAlternatives: seq<Selector>, results: View, resultSelectors: seq<Selector>, text: PageText)
    returns (outcome: Outcome)
    ensures outcome == Finish(controls, buttonAlternatives, results, resultSelectors, text)
  {
    var failure := UseFieldStep(controls, GenerateSelector, buttonAlternatives, NoGenerateButton);
    if failure.Some? {
      return Raised(failure.value);
    }
    var url, _ := ExtractResultUrl(results, resultSelectors, text);
    if url.None? {
      outcome := Raised(NoResultUrl);
    } else {
      outcome := Delivered(url.value);
    }
  }
}

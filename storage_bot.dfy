/** bot_with_storage.py: the bot that starts from a saved browser storage
    state.  A request types the prompt, picks V1, clicks Generate, polls up
    to 300 times for the final image, tries to download a copy without the
    watermark, and returns the triple (result URL, image src, file path);
    the handler then sends the file, or the image fetched from its src, or a
    link message. */
module StorageBot {
  import opened Oracle
  import opened Strings
  import opened Locate
  import opened ModelPicker
  import Generation

  const AuthIndicators: seq<Selector> := [
    "a[href*=\"workspace\"]", "a[href*=\"profile\"]", "button:has-text(\"Logout\")", ".user-menu",
    "[data-testid=\"user-menu\"]"]

  /** Attempts of the final-image loop (`for i in range(300)`). */
  const MaxAttempts: nat := 300

  // ---------------------------------------------------------------------------
  // Startup

  /** The globals `browser` and `context`: whether each holds an object. */
  class Session {
    var browserOpen: bool
    var contextOpen: bool

    constructor()
      ensures !browserOpen && !contextOpen
    {
      browserOpen, contextOpen := false, false;
    }

    /** `init_browser`.  A missing storage-state file raises inside the
        `try` before anything is launched, and that `try` swallows every
        exception, so startup never fails: `browser` is set when the launch
        goes through and `context` when creating it goes through too.  The
        home-page check after that only logs; `authenticated` is its
        verdict, absent when the check page could not be opened. */
    method InitBrowser(authStateExists: bool, launchOk: bool, contextOk: bool, pageOk: bool, home: View)
      returns (authenticated: Option<bool>)
      modifies this
      ensures browserOpen == (old(browserOpen) || (authStateExists && launchOk))
      ensures contextOpen == (old(contextOpen) || (authStateExists && launchOk && contextOk))
      ensures authenticated.Some? <==> authStateExists && launchOk && contextOk && pageOk
      ensures authenticated.Some? ==>
        (authenticated.value <==> exists i | 0 <= i < |AuthIndicators| :: home(AuthIndicators[i]).Found?)
    {
      authenticated := None;
      if !authStateExists {
        return;
      }
      if !launchOk {
        return;
      }
      browserOpen := true;
      if !contextOk {
        return;
      }
      contextOpen := true;
      if !pageOk {
        return;
      }
      // the navigation fallbacks are wrapped in their own `try`
      var isAuthenticated, _ := CheckAuthIndicators(home, AuthIndicators);
      authenticated := Some(isAuthenticated);
    }

    /** `process_makefilm_request`, which only reads `context`. */
    method ProcessRequest(site: Site) returns (outcome: RequestResult, pageOpened: bool, pageClosed: bool)
      ensures outcome == StorageRequest(contextOpen, site)
      ensures pageOpened <==> contextOpen && site.pageOk
      ensures pageClosed <==> pageOpened && site.closeOk
    {
      if !contextOpen {
        return NotInitialised, false, false;
      }
      if !site.pageOk {
        return Returned(NothingFound), false, false;
      }
      var t := Attempt(site);
      // `finally: if page: await page.close()`
      if !site.closeOk {
        return CloseFailed, true, false;
      }
      outcome, pageOpened, pageClosed := Returned(t), true, true;
    }

    /** `handle_text_message`: the request, then the delivery cascade on the
        triple it returns. */
    method HandleTextMessage(text: string, site: Site, fileSendOk: bool, fetch: Fetch) returns (reply: Reply)
      ensures reply == HandleText(text, contextOpen, site, fileSendOk, fetch)
    {
      if Strip(text) == "" {
        return AskForPrompt;
      }
      var outcome, _, _ := ProcessRequest(site);
      match outcome {
        case NotInitialised => reply := ErrorReport;
        case CloseFailed => reply := ErrorReport;
        case Returned(t) =>
          var photoSent;
          reply, photoSent := DeliverResult(t, fileSendOk, fetch);
      }
    }
  }

  // ---------------------------------------------------------------------------
  // Polling for the final image

  /** One attempt of the final-image loop: what the query for the final
      `<img>` produced, and whether the one-second pause after it (outside
      the attempt's `try`) goes through. */
  datatype Observation = Observation(probe: Probe, waitOk: bool)

  /** The src an attempt accepts: `img and src and 'thumb' not in src`.
      Reading `src` raising is caught like a missing image. */
  function AcceptedSrc(o: Observation): (r: Option<string>)
    ensures r.Some? ==> r.value != "" && !Contains(r.value, "thumb")
    ensures r.Some? ==> o.probe.Found? && o.probe.element.Attribute("src") == AttrValue(r.value)
  {
    if !o.probe.Found? then None
    else
      var src := o.probe.element.Attribute("src");
      if Truthy(src) && !Contains(src.value, "thumb") then Some(src.value) else None
  }

  /** The loop's result: the accepted src and the attempt that found it;
      all attempts used up (`img_src` stays None); or a pause that raised,
      which ends the whole request. */
  datatype PollResult = Ready(src: string, attempt: nat) | Exhausted | WaitRaised(attempt: nat)

  /** The loop from attempt `i` on. */
  function PollFrom(observe: nat -> Observation, i: nat): PollResult
    decreases MaxAttempts - i
  {
    if i >= MaxAttempts then Exhausted
    else match AcceptedSrc(observe(i))
      case Some(src) => Ready(src, i)
      case None => if !observe(i).waitOk then WaitRaised(i) else PollFrom(observe, i + 1)
  }

  function Poll(observe: nat -> Observation): PollResult {
    PollFrom(observe, 0)
  }

  /** An attempt that neither accepts an image nor raises in its pause. */
  predicate Quiet(o: Observation) {
    AcceptedSrc(o).None? && o.waitOk
  }

  /** The loop stops at the first attempt that accepts an image or whose
      pause raises, never goes beyond attempt 300, and uses all 300 only
      when every attempt is quiet. */
  lemma {:induction false} PollFromStopsAtFirst(observe: nat -> Observation, i: nat)
    requires i <= MaxAttempts
    ensures match PollFrom(observe, i)
      case Ready(src, k) =>
        && i <= k < MaxAttempts && AcceptedSrc(observe(k)) == Some(src)
        && forall j | i <= j < k :: Quiet(observe(j))
      case WaitRaised(k) =>
        && i <= k < MaxAttempts && AcceptedSrc(observe(k)).None? && !observe(k).waitOk
        && forall j | i <= j < k :: Quiet(observe(j))
      case Exhausted => forall j | i <= j < MaxAttempts :: Quiet(observe(j))
    ensures PollFrom(observe, i) == Exhausted <==> forall j | i <= j < MaxAttempts :: Quiet(observe(j))
    decreases MaxAttempts - i
  {
    if i < MaxAttempts && Quiet(observe(i)) {
      PollFromStopsAtFirst(observe, i + 1);
    }
  }

  /** The `for i in range(300)` loop as written; `queries` counts the
      `query_selector` calls it makes. */
  method WaitForFinalImage(observe: nat -> Observation) returns (result: PollResult, queries: nat)
    ensures result == Poll(observe)
    ensures queries == match result
      case Ready(_, k) => k + 1
      case WaitRaised(k) => k + 1
      case Exhausted => MaxAttempts
    ensures queries <= MaxAttempts
  {
    PollFromStopsAtFirst(observe, 0);
    queries := 0;
    var i := 0;
    while i < MaxAttempts
      invariant 0 <= i <= MaxAttempts
      invariant queries == i
      invariant PollFrom(observe, i) == Poll(observe)
    {
      var o := observe(i);
      queries := queries + 1;
      if o.probe.Found? {
        var src := o.probe.element.Attribute("src");
        if src.AttrValue? && src.value != "" && !Contains(src.value, "thumb") {
          return Ready(src.value, i), queries;
        }
      }
      if !o.waitOk {
        return WaitRaised(i), queries;
      }
      i := i + 1;
    }
    result := Exhausted;
  }

  // ---------------------------------------------------------------------------
  // The request

  /** The watermark step: the menu, the "remove watermark" item and the
      download either all go through, giving the download's suggested file
      name, or something in them raises. */
  datatype Download = DownloadFails | Downloaded(suggestedName: string)

  /** `os.path.join("/tmp", f"nofilter_{name}")`; the prefix keeps the name
      relative, so the join is a plain concatenation. */
  function SavedPath(name: string): (p: string)
    ensures StartsWith(p, "/tmp/nofilter_") && p[|"/tmp/nofilter_"|..] == name
  {
    "/tmp/nofilter_" + name
  }

  function FileOf(d: Download): Option<string> {
    if d.Downloaded? then Some(SavedPath(d.suggestedName)) else None
  }

  /** Everything one request meets: whether opening the page and the
      navigation (with its pause) go through; the form and whether the
      exact-path prompt field takes focus, the fill, the typing and the two
      events; the V1 selection; the controls and whether the exact-path
      Generate button takes the scroll, hover and click; the polling
      attempts; the watermark step; and whether closing the page in the
      `finally` clause goes through. */
  datatype Site = Site(
    pageOk: bool,
    closeOk: bool,
    generatorOk: bool,
    form: View,
    v1: StorageV1Page,
    controls: View,
    observe: nat -> Observation,
    download: Download)

  /** `(result_url, img_src, file_path)` */
  datatype Triple = Triple(resultUrl: Option<string>, imgSrc: Option<string>, filePath: Option<string>)

  const NothingFound: Triple := Triple(None, None, None)

  /** The request raises when there is no context, and when closing an
      opened page raises, which replaces the triple the body returned; every
      other failure is caught and turned into `(None, None, None)`. */
  datatype RequestResult = NotInitialised | CloseFailed | Returned(triple: Triple)

  /** Only the exact CSS path is tried, and using the element is inside the
      same `try` whose `except` re-raises into the request's handler. */
  predicate Usable(view: View, sel: Selector) {
    view(sel).Found? && view(sel).element.actionsSucceed
  }

  function StorageRequest(contextReady: bool, site: Site): RequestResult {
    if !contextReady then NotInitialised
    else if site.pageOk && !site.closeOk then CloseFailed
    else Returned(Body(site))
  }

  /** The triple the `try` block returns, from its `return` or from its
      `except`. */
  function Body(site: Site): Triple {
    if !site.pageOk || !site.generatorOk then NothingFound
    else if !Usable(site.form, Generation.PromptSelector) || !Usable(site.controls, Generation.GenerateSelector) then NothingFound
    else match Poll(site.observe)
      case WaitRaised(_) => NothingFound
      case Ready(src, _) => Triple(None, Some(src), FileOf(site.download))
      case Exhausted => Triple(None, None, FileOf(site.download))
  }

  /** The body of the `try` once the page is open, with `result_url`,
      `img_src` and `file_path` reassigned step by step. */
  method Attempt(site: Site) returns (outcome: Triple)
    requires site.pageOk
    ensures outcome == Body(site)
  {
    var resultUrl: Option<string> := None;
    var imgSrc: Option<string> := None;
    var filePath: Option<string> := None;
    if !site.generatorOk {
      return NothingFound;
    }
    if !Usable(site.form, Generation.PromptSelector) {
      return NothingFound;
    }
    var _ := SelectV1FromStorage(site.v1);
    if !Usable(site.controls, Generation.GenerateSelector) {
      return NothingFound;
    }
    var polled, _ := WaitForFinalImage(site.observe);
    if polled.WaitRaised? {
      return NothingFound;
    }
    if polled.Ready? {
      imgSrc := Some(polled.src);
    }
    match site.download {
      case Downloaded(name) => filePath := Some(SavedPath(name));
      case DownloadFails => filePath := None;
    }
    assert filePath == FileOf(site.download);
    outcome := Triple(resultUrl, imgSrc, filePath);
  }

  /** `result_url` is never reassigned: the first component is always None. */
  lemma ResultUrlAlwaysNone(contextReady: bool, site: Site)
    ensures StorageRequest(contextReady, site).Returned? ==>
      StorageRequest(contextReady, site).triple.resultUrl.None?
  {
  }

  /** Every failure after the context check, the prompt and the Generate
      button included, returns `(None, None, None)` instead of raising,
      unless closing the opened page raises. */
  lemma FailuresReturnNothing(site: Site)
    requires !site.pageOk || !site.generatorOk || !Usable(site.form, Generation.PromptSelector) ||
      !Usable(site.controls, Generation.GenerateSelector) || Poll(site.observe).WaitRaised?
    ensures StorageRequest(true, site) == if site.pageOk && !site.closeOk then CloseFailed else Returned(NothingFound)
  {
  }

  /** Once the polling is over, the watermark step only decides the file
      path: `img_src` is the accepted src of the first attempt that accepts
      one, or None when all 300 attempts are quiet, whatever the download
      does; the path is present exactly when the download went through. */
  lemma WatermarkOnlyDecidesFile(site: Site, d: Download)
    requires site.pageOk && site.generatorOk && Usable(site.form, Generation.PromptSelector) && Usable(site.controls, Generation.GenerateSelector)
    requires !Poll(site.observe).WaitRaised?
    ensures var t := Body(site);
      && Body(site.(download := d)).imgSrc == t.imgSrc
      && (t.filePath.Some? <==> site.download.Downloaded?)
      && (t.imgSrc.Some? <==> exists k | 0 <= k < MaxAttempts :: AcceptedSrc(site.observe(k)).Some?)
      && (t.imgSrc.Some? ==> t.imgSrc.value != "" && !Contains(t.imgSrc.value, "thumb"))
  {
    var src := if Poll(site.observe).Ready? then Some(Poll(site.observe).src) else None;
    assert Body(site) == Triple(None, src, FileOf(site.download));
    assert Body(site.(download := d)) == Triple(None, src, FileOf(d));
    PolledSrc(site.observe);
  }

  /** Unless a pause raised, the polling finds a src exactly when some
      attempt offers an acceptable one, and what it finds is acceptable. */
  lemma PolledSrc(observe: nat -> Observation)
    requires !Poll(observe).WaitRaised?
    ensures Poll(observe).Ready? <==> exists k | 0 <= k < MaxAttempts :: AcceptedSrc(observe(k)).Some?
    ensures Poll(observe).Ready? ==> Poll(observe).src != "" && !Contains(Poll(observe).src, "thumb")
  {
    PollFromStopsAtFirst(observe, 0);
    if Poll(observe) == Exhausted {
      forall k | 0 <= k < MaxAttempts ensures AcceptedSrc(observe(k)).None? {
        assert Quiet(observe(k));
      }
    }
  }

  /** The V1 selection never changes what the request returns. */
  lemma V1NeverDecides(contextReady: bool, site: Site, v1: StorageV1Page)
    ensures StorageRequest(contextReady, site.(v1 := v1)) == StorageRequest(contextReady, site)
  {
  }

  // ---------------------------------------------------------------------------
  // Delivery

  /** The fallback fetch of the image src: raising anywhere (the request,
      writing the file, sending it), or a response with its status and
      whether sending the fetched photo goes through. */
  datatype Fetch = FetchFails | Response(status: int, sendOk: bool)

  /** What the user gets: the prompt request, the error report, a photo
      from the downloaded file, a photo fetched from the src, or the
      "image ready" message with the (possibly None) link. */
  datatype Reply =
    | AskForPrompt
    | ErrorReport
    | PhotoFromFile
    | PhotoFromSrc
    | LinkMessage(url: Option<string>)

  predicate TruthyText(s: Option<string>) {
    s.Some? && s.value != ""
  }

  /** The delivery cascade after a returned triple. */
  function Deliver(t: Triple, fileSendOk: bool, fetch: Fetch): Reply {
    if TruthyText(t.filePath) && fileSendOk then PhotoFromFile
    else if TruthyText(t.imgSrc) && fetch.Response? && fetch.status == 200 && fetch.sendOk then PhotoFromSrc
    else LinkMessage(t.resultUrl)
  }

  /** Whether the placeholder message is edited to the "sent" text (rather
      than to the link message). */
  predicate PhotoSent(r: Reply) {
    r == PhotoFromFile || r == PhotoFromSrc
  }

  /** Delivery priority: a downloaded file that could be sent wins; the src
      fetch is tried only when no file was sent and counts only with status
      200; otherwise the link message is shown, and it is shown exactly when
      no photo was sent. */
  lemma DeliveryPriority(t: Triple, fileSendOk: bool, fetch: Fetch)
    ensures TruthyText(t.filePath) && fileSendOk ==> Deliver(t, fileSendOk, fetch) == PhotoFromFile
    ensures Deliver(t, fileSendOk, fetch) == PhotoFromSrc ==>
      !(TruthyText(t.filePath) && fileSendOk) && TruthyText(t.imgSrc) && fetch == Response(200, true)
    ensures fetch.Response? && fetch.status != 200 ==> !(Deliver(t, fileSendOk, fetch) == PhotoFromSrc)
    ensures !PhotoSent(Deliver(t, fileSendOk, fetch)) <==> Deliver(t, fileSendOk, fetch) == LinkMessage(t.resultUrl)
  {
  }

  /** The cascade as written, with its `photo_sent` flag. */
  method DeliverResult(t: Triple, fileSendOk: bool, fetch: Fetch) returns (reply: Reply, photoSent: bool)
    ensures reply == Deliver(t, fileSendOk, fetch)
    ensures photoSent == PhotoSent(reply)
  {
    photoSent := false;
    reply := LinkMessage(t.resultUrl);
    if TruthyText(t.filePath) {
      if fileSendOk {
        reply := PhotoFromFile;
        photoSent := true;
      }
    }
    if !photoSent && TruthyText(t.imgSrc) {
      if fetch.Response? && fetch.status == 200 && fetch.sendOk {
        reply := PhotoFromSrc;
        photoSent := true;
      }
    }
  }

  /** `handle_text_message`: a blank message asks for a prompt; a request
      that raises is reported as an error; a returned triple goes through
      the delivery cascade. */
  function HandleText(text: string, contextReady: bool, site: Site, fileSendOk: bool, fetch: Fetch): Reply {
    if Strip(text) == "" then AskForPrompt
    else Answer(StorageRequest(contextReady, site), fileSendOk, fetch)
  }

  /** The answer to a request that raised or returned a triple. */
  function Answer(result: RequestResult, fileSendOk: bool, fetch: Fetch): Reply {
    match result
    case NotInitialised => ErrorReport
    case CloseFailed => ErrorReport
    case Returned(t) => Deliver(t, fileSendOk, fetch)
  }

  /** With a context, the error report comes only from a close that raises;
      otherwise, without a sent photo the user sees the link message, and
      since the request never sets a result URL, that message always shows
      None; a request that found nothing therefore ends in that message. */
  lemma LinkMessageShowsNone(text: string, contextReady: bool, site: Site, fileSendOk: bool, fetch: Fetch)
    requires Strip(text) != "" && contextReady
    ensures var r := HandleText(text, contextReady, site, fileSendOk, fetch);
      r == ErrorReport <==> site.pageOk && !site.closeOk
    ensures var r := HandleText(text, contextReady, site, fileSendOk, fetch);
      r == ErrorReport || PhotoSent(r) || r == LinkMessage(None)
    ensures StorageRequest(contextReady, site) == Returned(NothingFound) ==>
      HandleText(text, contextReady, site, fileSendOk, fetch) == LinkMessage(None)
  {
    HandleTextAnswers(text, contextReady, site, fileSendOk, fetch);
    if !(site.pageOk && !site.closeOk) {
      ResultUrlAlwaysNone(contextReady, site);
      DeliveryPriority(Body(site), fileSendOk, fetch);
    }
  }

  /** With a context, a non-blank message is answered with the error report
      when the close raises, and with the delivery of the body's triple
      otherwise. */
  lemma HandleTextAnswers(text: string, contextReady: bool, site: Site, fileSendOk: bool, fetch: Fetch)
    requires Strip(text) != "" && contextReady
    ensures HandleText(text, contextReady, site, fileSendOk, fetch) ==
      if site.pageOk && !site.closeOk then ErrorReport else Deliver(Body(site), fileSendOk, fetch)
  {
    var result := StorageRequest(contextReady, site);
    assert result == if site.pageOk && !site.closeOk then CloseFailed else Returned(Body(site));
    assert HandleText(text, contextReady, site, fileSendOk, fetch) == Answer(result, fileSendOk, fetch);
  }
}

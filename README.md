# makefilm.ai Telegram bot: the decision logic, verified

The repository is a Telegram bot that drives the makefilm.ai image generator
in a Playwright browser. It comes in three variants:

- `bot.py`, which starts from saved cookies;
- `bot_auto_auth.py`, which checks the login before every request and can
  wait for a manual login;
- `bot_with_storage.py`, which starts from a saved browser storage state.

Two offline validators check the saved login: `simple_test.py` checks
`cookies.json` and `test_auth_state.py` checks `auth_state.json`.

This Dafny project models the decisions these programs make around the
browser:

- the first-match-wins selector lists for the auth indicators, the workspace
  links, the prompt field and the Generate button;
- the V1 model-picker cascades;
- the result-URL extraction with its page-text fallback and the step that
  puts the site address in front of a URL starting with "/";
- the 300-attempt polling for the final image;
- the watermark download;
- the delivery cascade of the storage bot;
- the `ensure_authentication` decision tree;
- the two cookie validators.

The browser is an oracle. A page is a `View`, a function from a selector to
`Found(element) | Absent | Throws`. An element carries:

- its attributes, where an attribute can be missing, have a value or raise;
- its inner text, which may fail to be read;
- whether the actions done to it go through (click, fill, type, scroll,
  hover).

Each step of a request sees its own `View`, so anything a click or a
navigation changes on the page is covered. A query that raises counts as
"not found", just as the per-selector `try`/`except: continue` blocks
make it.

The loops of the source are Dafny methods with loop invariants. Each method
is proved equal to a specification function, and the lemmas state what the
source promises about that function. `Ranked.FirstHit` is the one
first-match-wins search that every selector list, link loop and cascade is
proved against.

Files:

- `oracle.dfy`: the browser oracle.
- `strings.dfy`: Python's `strip`, `lower`, `in` and `startswith` on strings.
- `ranked.dfy`: the first-match-wins search.
- `locate.dfy`: the selector loops, the login-redirect test and the
  workspace-link loop.
- `result_url.dfy`: the result-URL extraction.
- `generation.dfy`: prompt field, Generate button and result, shared by
  `bot.py` and `bot_auto_auth.py`.
- `model_picker.dfy`: both V1 cascades.
- `bot.dfy`, `auto_auth.dfy`, `storage_bot.dfy`: the requests and handlers
  of the three bots.
- `json.dfy`: parsed JSON and the shared flag loops of the validators.
- `cookie_check.dfy`, `auth_state_check.dfy`: the validators.

### Behaviour of the code that is easy to miss

The model follows the code as written in each case:

- **Workspace links.** A workspace link whose click raises does not end the
  link loop: the `except: continue` moves on to the next link. So a later
  link can be clicked after an earlier one was (bot.py:240-249).
- **Keyboard fallback.** In `bot.py` the V1 keyboard fallback does not set
  `picked`. In `bot_with_storage.py` it sets `picked` whenever its key
  presses go through.
- **Dropdown.** After the dropdown-candidate loop of `bot_with_storage.py`,
  `dropdown` is never `None`. It is assigned before each `wait_for`, so when
  no candidate appears it is the last candidate's locator. The in-dropdown
  strategies therefore always run first.
- **Polling pause.** In the polling loop the one-second pause is outside the
  attempt's `try`. A pause that raises ends the whole request with
  `(None, None, None)`.
- **Result URL.** `bot_with_storage.py` never assigns `result_url`. The link
  message therefore always shows `None`.
- **Cookie expiry.** In `simple_test.py` a cookie's expiry affects more than
  the printed output. A non-numeric expiry, or one beyond the range of
  `datetime.fromtimestamp`, raises, and the check returns False. Other type
  errors do the same:
  - an unhashable name;
  - an unsized value on a tracked cookie;
  - a dict value longer than 20;
  - a domain that does not support `in`.
- **Origins.** In `test_auth_state.py` the `origins` entry can change the
  result in the same way. A malformed `origins` raises and the check
  returns False.
- **Diagnostics.** In `bot.py` the diagnostic `page.evaluate` is outside
  any `try`, so its failure fails the request. The same holds for the
  prompt `fill`/`type` and the Generate click in `bot.py` and
  `bot_auto_auth.py`.
- **Relative result links.** The comment at bot.py:478 says a relative
  link is made absolute, but only a URL starting with "/" is changed. A relative
  path such as `img/a.jpg` is returned as it is. A protocol-relative
  `//cdn.example/a.jpg` gets the generator's address in front of its `//`
  (bot.py:479-480, bot_auto_auth.py:427-428).
- **Closing the page.** In all three bots the `finally` clause closes an
  opened page outside any `try`. A close that raises replaces whatever the
  request returned or raised. In `bot_with_storage.py` the request then
  raises instead of returning its triple, and the handler answers with the
  error report (bot.py:488-490, bot_auto_auth.py:436-438,
  bot_with_storage.py:319-321).
- **Storage bot selectors.** `bot_with_storage.py` looks for the prompt
  field and the Generate button by their exact paths only, with no
  alternatives. Any failure there makes the request return
  `(None, None, None)`.

## Model

| member | source | states |
|---|---|---|
| Ranked.FirstHit | bot.py:200-209 | the first index whose entry hits: every earlier entry misses, and None exactly when no entry hits |
| Ranked.FirstWins | bot.py:200-209 | the loop with `break` returns the first hit and exactly the entries it consulted, up to and including the hit |
| Ranked.FirstHitAppend | bot.py:255-285 | searching a list made of two parts is searching the first part, then the second part shifted past it |
| Locate.FirstElement | bot.py:274-283 | an element is returned iff some selector finds one, and it is the element of the first selector that does |
| Locate.QuerySelectors | bot.py:274-283 | the alternative-selector loop returns the first found element and queries the selectors only up to it |
| Locate.CheckAuthIndicators | bot.py:190-209 | `is_authenticated` is true iff some indicator is found; the scan stops at the first one; a query that raises counts as not found |
| Locate.ResolveField | bot.py:255-285 | the field is the first element found among the exact path followed by the alternatives |
| Locate.PrimaryBeforeAlternatives | bot.py:255-285 | a found exact path wins; otherwise the first found alternative is used |
| Locate.LoginRedirectIffWordAnywhere | bot.py:229 | the URL counts as a login redirect iff some stretch of it lower-cases to "login", "signin" or "auth", at any position |
| Locate.FollowWorkspaceLink | bot.py:240-249 | the followed link is the first found link whose click goes through (`FirstHit` over the followable links); clicks are tried on found links only, in order, and are exactly `LinkClicks`; every click before the last one failed |
| ResultUrl.ElementUrl | bot.py:444-456 | a URL read from an element is non-empty and is the element's `href` or `data-result-url` |
| ResultUrl.HrefBeforeDataUrl | bot.py:446-456 | a truthy `href` wins; `data-result-url` is used only when `href` is falsy; with neither, the element yields nothing |
| ResultUrl.AbsolutizeProperties | bot.py:479-480 | prefixing keeps the URL as a suffix, leaves no leading "/", is idempotent, and changes exactly the URLs that start with "/" |
| ResultUrl.OnlyLeadingSlashIsPrefixed | bot.py:479-480 | a relative path without a leading "/" is returned unchanged, and a protocol-relative URL gets the site address in front of its `//` |
| ResultUrl.ResultUrlOf | bot.py:437-480 | a result URL is non-empty and does not start with "/"; there is none exactly when no selector yields one and the page text has no non-empty first match |
| ResultUrl.ExtractResultUrl | bot.py:437-480 | the selector loop, the text scan and the prefixing give `ResultUrlOf`; selectors are consulted in order, each once, up to the first that yields |
| ResultUrl.SelectorsBeforeText | bot.py:437-476 | once a selector yields a URL the page text cannot change the outcome, and the result is the first yielding selector's URL, prefixed |
| ResultUrl.TextFallback | bot.py:462-476 | with no yielding selector the first non-empty text match is used, and unreadable content or no match means no URL |
| ModelPicker.NeedsV1PickIgnoresStrip | bot.py:300-306 | the stripped label asks for the pick exactly when the raw label, lower-cased, does not contain "v1": stripping never changes the decision |
| ModelPicker.BotCascadeGate | bot.py:294-362 | the cascade runs exactly when the button is ready, its click goes through and its label is unreadable or lacks "v1" in any case; the button is left alone exactly when the click goes through on a label containing "v1" |
| ModelPicker.BotV1 | bot.py:294-362 | the strategies tried are a prefix of role, text, the four attributes and keyboard; each before the last failed; the last one is the winner and works; with no winner, every strategy fails and the whole cascade was tried |
| ModelPicker.BotPickedIffMenuStrategyWorks | bot.py:314-352 | `picked` ends true iff some role, text or attribute strategy works; the keyboard fallback never sets it |
| ModelPicker.SelectV1 | bot.py:294-362 | the sequential `if not picked` blocks and the attribute loop compute `BotV1` |
| ModelPicker.RunBotCascade | bot.py:316-362 | the `if not picked` blocks stop at the first working strategy of the bot cascade, return it with the strategies tried up to it, and leave `picked` false when only the keyboard fallback works |
| ModelPicker.DropdownAfterLoop | bot_with_storage.py:193-199 | `dropdown` is always one of the four candidates; when some candidate appears it is the first one that does, and when none appears it is the last candidate |
| ModelPicker.StorageV1 | bot_with_storage.py:181-260 | the cascade is skipped exactly when the V1 button step fails, and there is no "already V1" shortcut |
| ModelPicker.StoragePickedIffSomeStrategyWorks | bot_with_storage.py:200-249 | `picked` ends true iff some strategy of the cascade works, the keyboard included |
| ModelPicker.DropdownStrategiesAlwaysFirst | bot_with_storage.py:193-226 | the in-dropdown role strategy is always tried first, whether or not any dropdown appeared |
| ModelPicker.SelectV1FromStorage | bot_with_storage.py:181-260 | the button step, the dropdown loop and the cascade compute `StorageV1` |
| ModelPicker.WaitForDropdown | bot_with_storage.py:193-199 | the candidate loop leaves `dropdown` as `DropdownAfterLoop` says |
| ModelPicker.RunStorageCascade | bot_with_storage.py:200-249 | the `if not picked` blocks return the first working strategy of the storage cascade and the strategies tried up to it |
| Generation.UseFieldOutcome | bot.py:255-289 | a field is reported missing iff neither the exact path nor any alternative is found; a found exact path decides alone; an alternative is used only when it is the first one found |
| Generation.UseFieldStep | bot.py:255-289 | resolving the field and interacting with it give `UseField` |
| Generation.FinishOutcome | bot.py:384-483 | a delivered URL needs the click to succeed, is non-empty and does not start with "/"; the missing-result failure happens iff the click succeeds and nothing yields a URL |
| Generation.GenerateAndCollect | bot.py:384-483 | the button resolution, the click and the extraction give `Finish` |
| Bot.ProcessRequest | bot.py:159-490 | the outcome is `RequestOutcome`; a page is opened iff the context exists and opening works; an opened page is closed iff the close goes through, and a failing close makes the request raise |
| Bot.Attempt | bot.py:176-483 | the steps after the page opens, in order, give `AttemptOutcome`, which is the request's outcome when the page closes; workspace links are clicked only when both navigations went through and the URL is a login redirect, and then exactly `LinkClicks` |
| Bot.SideStepsNeverDecide | bot.py:187-362 | with what the later steps see held fixed, the home page, the redirect URL, the workspace links and the V1 selection never change what the request returns or raises |
| Bot.RequestFailures | bot.py:159-490 | "not initialised" iff there is no context; an opened page whose close raises makes the request raise; "no prompt field" iff the page opens and closes, the early steps go through and no prompt selector finds anything; a delivered URL is non-empty and does not start with "/" |
| Bot.BlankMessageAsksForPrompt | bot.py:550-554 | a message is answered with the prompt request iff it is all whitespace; otherwise the request's outcome is reported |
| Bot.HandleTextMessage | bot.py:546-579 | the handler's reply is `HandleText`; a request is started iff the stripped message is non-empty, and its page is closed iff it was opened and the close goes through |
| AutoAuth.AuthenticationDecision | bot_auto_auth.py:136-228 | an indicator answers yes at once; a visible login element answers no without waiting; otherwise the answer is the recheck after the manual wait; a failed home page answers no |
| AutoAuth.EnsureAuthentication | bot_auto_auth.py:136-228 | the indicator loop, the login loop, the manual wait and the recheck give `Authenticated`, and the wait happens exactly when the decision tree says so |
| AutoAuth.FindLoginElement | bot_auto_auth.py:187-198 | `login_found` is true iff some login element is found and its text can be read |
| AutoAuth.ProcessRequest | bot_auto_auth.py:231-438 | the outcome is `RequestOutcome`; authentication runs iff the page opened and is reported; an opened page is closed iff the close goes through, and a failing close makes the request raise |
| AutoAuth.Attempt | bot_auto_auth.py:249-431 | the steps after `ensure_authentication`, in order, give `AttemptOutcome`, which is the request's outcome when the page closes; workspace links are clicked only when the navigation went through and the URL is a login redirect (line 261), and then exactly `LinkClicks` |
| AutoAuth.AuthenticationNeverDecides | bot_auto_auth.py:243-247 | the request's outcome is the same whatever the authentication pages show |
| AutoAuth.RequestFailures | bot_auto_auth.py:231-438 | "not initialised" iff there is no context; an opened page whose close raises makes the request raise; "no Generate button" iff the page opens and closes, the prompt went in and neither the exact path nor any of the eight alternatives is found; a delivered URL is non-empty and does not start with "/" |
| StorageBot.Session.InitBrowser | bot_with_storage.py:48-123 | startup never raises; `browser` is set iff the state file exists and the launch works, and `context` iff creating it works too; the login verdict is given iff the check page opens, and it is true iff some indicator is found |
| StorageBot.Session.ProcessRequest | bot_with_storage.py:147-321 | the result is `StorageRequest` over the current context; an opened page is closed iff the close goes through, and a failing close makes the request raise instead of returning its triple |
| StorageBot.Session.HandleTextMessage | bot_with_storage.py:377-446 | the request followed by the delivery cascade gives `HandleText` |
| StorageBot.AcceptedSrc | bot_with_storage.py:284-288 | an accepted `src` is the found image's `src` attribute, non-empty and without "thumb" |
| StorageBot.PollFromStopsAtFirst | bot_with_storage.py:283-295 | polling stops at the first attempt with an accepted `src` or a failing pause; every earlier attempt was quiet; it is exhausted iff all 300 attempts are quiet |
| StorageBot.WaitForFinalImage | bot_with_storage.py:280-295 | the `for i in range(300)` loop gives `Poll` and makes at most 300 queries, as many as the attempt it stopped at |
| StorageBot.Attempt | bot_with_storage.py:155-318 | the steps after the page opens, in order, give the triple `Body`, which the request returns when the page closes |
| StorageBot.ResultUrlAlwaysNone | bot_with_storage.py:151-315 | every returned triple has `result_url` None |
| StorageBot.FailuresReturnNothing | bot_with_storage.py:155-321 | a failure in opening, the prompt, the Generate button or the polling pause returns `(None, None, None)` instead of raising, unless the close of an opened page raises |
| StorageBot.WatermarkOnlyDecidesFile | bot_with_storage.py:296-315 | the watermark download decides only the file path, which is None when it fails; `img_src` is the polling result either way |
| StorageBot.PolledSrc | bot_with_storage.py:283-295 | unless a pause raises, the loop finds a src exactly when some attempt within 300 offers an acceptable one, and what it finds is non-empty and free of `thumb` |
| StorageBot.V1NeverDecides | bot_with_storage.py:177-260 | the V1 selection never changes the returned triple |
| StorageBot.DeliveryPriority | bot_with_storage.py:396-438 | a sent file wins; the src fetch counts only after that and only with status 200; the link message is shown exactly when no photo was sent |
| StorageBot.DeliverResult | bot_with_storage.py:396-438 | the cascade with its `photo_sent` flag gives `Deliver`, and the flag says whether a photo was sent |
| StorageBot.HandleTextAnswers | bot_with_storage.py:377-445 | with a context, a non-blank message is answered with the error report when the close of an opened page raises, and otherwise with the delivery of the triple the request body returned |
| StorageBot.LinkMessageShowsNone | bot_with_storage.py:319-445 | with a context, the error report comes iff the close of an opened page raises; otherwise, without a sent photo the user gets the link message with `None`, which is also the answer when the request found nothing |
| Json.MarkAllClosedForm | simple_test.py:42-50 | the cookie loop raises iff some cookie raises; otherwise the flags set are exactly the names some cookie marks, whatever the order |
| Json.SameCookiesSameMarks | simple_test.py:42-50 | cookie lists with the same elements set the same flags, whatever the order or repetition |
| Json.FlagCookies | simple_test.py:34-50 | the in-place update of the flag dict leaves each flag true iff the loop marked its name, or stops where a cookie raises |
| Json.AllFlagged | simple_test.py:67-73 | `all_good` ends true iff every tracked flag is true |
| CookieCheck.ExamineCookie | simple_test.py:42-63 | a cookie marks only a tracked name, and only its own `name` |
| CookieCheck.TestCookies | simple_test.py:10-90 | the function returns `CookiesValid`: False for a missing or unparsable file and for any raising cookie; otherwise whether all five flags are set |
| CookieCheck.ValidIffAllImportantNames | simple_test.py:34-82 | on well-formed cookies the result is true iff each of the five important names is some cookie's name |
| CookieCheck.NamelessCookieNeverCounts | simple_test.py:43-50 | a cookie without a name never sets a flag |
| CookieCheck.ExpiryMattersOnlyByRaising | simple_test.py:57-63 | two in-range expiries give the same verdict; an expiry that raises makes the check False |
| CookieCheck.CookieOrderIrrelevant | simple_test.py:42-50 | the order and repetition of cookies do not change the result |
| CookieCheck.PlaceholderAnywhereIsNotConfigured | simple_test.py:106 | the placeholder anywhere in the file means the token is not configured |
| AuthStateCheck.ExamineStateCookie | test_auth_state.py:43-52 | a cookie raises iff it is not a dict, its name is unhashable or its domain does not support `in`; it marks only a tracked name, and only its own |
| AuthStateCheck.TestAuthState | test_auth_state.py:10-86 | the function returns `StateValid`: False for a missing or unparsable file, a non-dict state, a missing `cookies` key, a raising cookie or malformed `origins`; otherwise whether all four flags are set |
| AuthStateCheck.CheckOrigins | test_auth_state.py:54-61 | the origins loop completes iff every entry is a dict whose `origin` supports `in` |
| AuthStateCheck.ValidIffAllStateNames | test_auth_state.py:31-79 | on well-formed cookies the result is true iff each of the four names is some cookie's name |
| AuthStateCheck.AuthTokenNotRequired | test_auth_state.py:36-41 | adding an `auth_token` cookie does not change the result |
| AuthStateCheck.NoCookiesFails | test_auth_state.py:31-86 | a state without `cookies` is always False (the NameError at the status loop is caught) |
| AuthStateCheck.OriginsOnlyDecideByRaising | test_auth_state.py:54-61 | well-formed `origins` give the same result as none at all; malformed ones make it False |
| Strings.Strip | bot.py:550 | the stripped text is the slice between the first and the last non-space character, and everything cut off is whitespace |
| Strings.StripEmptyIffBlank | bot.py:550-552 | a message strips to "" iff it consists of whitespace only |

## Left out

- Playwright itself: navigation, timeouts, `wait_for_*`, hover, scroll, typing delays, screenshots and the download capture. These become oracle outcomes: a step goes through or raises, and an element is found, absent or the query raises.
- The text typed into the prompt field and all logging. Neither affects any decision.
- Telegram I/O (aiogram): sending and editing messages, and failures of those calls. The model returns the reply that would be chosen.
- The aiohttp fetch of the image `src`. It becomes `Fetch`: it raises, or it gives a status and whether sending the photo goes through.
- File and `.env` I/O, `json.load` and `os.path.exists`. The validators take a `Loaded` value (missing, unparsable or parsed) and `ConfigCheck` takes the file content if the file exists.
- `re.findall` in the page-text fallback. Its result is an oracle `PageText`: the content cannot be read, or a list of matches.
- Unicode `str.lower`. Only ASCII letters are lower-cased. The needles compared against ("v1", "login", "signin", "auth") are ASCII, but a non-ASCII capital that Python lower-cases to an ASCII letter is not modelled. `str.strip` uses Python's full whitespace set.
- CookieCheck.ExpiryOk: the `datetime.fromtimestamp` bound is fixed at 253402300799 (end of year 9999, UTC). The real bound depends on the local time zone and the platform. JSON NaN and Infinity are not modelled.
- The `input()` pause of the manual login. It becomes the flag `manualWaitOk`.
- The globals lifecycle of `bot.py` and `bot_auto_auth.py` (`init_browser`, `close_browser`, cookie loading and saving). A request only sees whether `context` exists. `bot_with_storage.py`'s `init_browser` is modelled as `Session.InitBrowser`; its `close_browser` is not part of this model.
- `cmd_start`, `cmd_help`, `cmd_status`, `main`. These are fixed texts and the polling startup.
- `bot_auto_auth.py`'s `handle_text_message`. It is the same as `bot.py`'s, which is modelled.
- A message without text (`message.text` is None). The handlers would raise before the model starts.
- asyncio concurrency between requests that share one browser context.
- The selector-discovery and cookie-capture scripts (`analyze_generator.py`, `find_*.py`, `save_auth_state.py`, `get_cookies.py`, `manual_cookies.py`, `console_cookies.py`, `open_chrome.py`, `test_auth.py`) are not part of this model: they have no decision logic the bots depend on.

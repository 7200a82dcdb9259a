/** simple_test.py: the offline check of `cookies.json` that tells whether
    bot.py can expect to be logged in, and the check of `.env` for the
    placeholder Telegram token. */
module CookieCheck {
  import opened Oracle
  import opened Strings
  import opened Json

  /** The cookies that must all be present, in the order of the source's
      `important_cookies` dict. */
  const ImportantNames: seq<string> := ["csrf_access_token", "csrf_refresh_token", "profile", "session_id", "auth_token"]

  function ImportantSet(): set<string> {
    set n | n in ImportantNames
  }

  /** The largest timestamp `datetime.fromtimestamp` accepts (the end of
      year 9999, UTC); a larger positive expiry raises. */
  const MaxTimestamp: real := 253402300799.0

  /** The expiry test completes: numbers (booleans included) compare with
      0, and only a positive one is converted, which needs it within the
      range `fromtimestamp` accepts (a non-positive one is within that bound
      too); strings, None, lists and dicts cannot be compared with 0. */
  predicate ExpiryOk(e: Json) {
    match e
    case JNum(n) => n <= MaxTimestamp
    case JBool(_) => true
    case _ => false
  }

  /** The log line for a found cookie completes: `len(value)` needs a
      string, list or dict, and `value[:20]` (taken when it is longer than
      20) cannot slice a dict. */
  predicate ValuePrintable(v: Json) {
    match v
    case JStr(_) => true
    case JArr(_) => true
    case JObj(fields) => |fields| <= 20
    case _ => false
  }

  /** The body of `for cookie in cookies` on one cookie: `.get` needs a dict;
      the name must be hashable for `name in important_cookies`; a tracked
      name gets its flag set and its value logged; then the domain test and
      the expiry test run for every cookie. */
  function ExamineCookie(c: Json): (r: CookieVerdict)
    ensures r.CookieSeen? && r.marks.Some? ==> r.marks.value in ImportantSet()
    ensures r.CookieSeen? && r.marks.Some? ==> c.JObj? && Get(c.fields, "name", JStr("")) == JStr(r.marks.value)
  {
    if !c.JObj? then CookieRaises
    else
      var name := Get(c.fields, "name", JStr(""));
      var value := Get(c.fields, "value", JStr(""));
      var domain := Get(c.fields, "domain", JStr(""));
      var expires := Get(c.fields, "expires", JNum(0.0));
      if !Hashable(name) then CookieRaises
      else
        var tracked := name.JStr? && name.s in ImportantSet();
        if tracked && !ValuePrintable(value) then CookieRaises
        else if !SupportsIn(domain) || !ExpiryOk(expires) then CookieRaises
        else CookieSeen(if tracked then Some(name.s) else None)
  }

  /** What `test_cookies` returns.  A dict or string at the top level is
      iterated as strings: empty, it leaves every flag False; otherwise its
      first element has no `.get`. */
  function CookiesValid(loaded: Loaded): bool {
    match loaded
    case FileMissing => false
    case Unparsable => false
    case Parsed(doc) =>
      match Iterate(doc)
      case NotIterable => false
      case OverStrings(_) => false
      case OverItems(items) =>
        match MarkAll(items, ExamineCookie)
        case None => false
        case Some(found) => ImportantSet() <= found
  }

  /** `test_cookies` as written: the `important_cookies` dict updated in
      place by the cookie loop, then the `all_good` loop over its entries. */
  method TestCookies(loaded: Loaded) returns (allGood: bool)
    ensures allGood == CookiesValid(loaded)
  {
    if !loaded.Parsed? {
      return false;
    }
    var items: seq<Json>;
    match Iterate(loaded.doc) {
      case NotIterable => return false;
      case OverStrings(n) =>
        if n > 0 {
          return false;
        }
        items := [];
      case OverItems(xs) => items := xs;
    }
    var flags := FlagCookies(items, ExamineCookie, ImportantNames);
    if flags.None? {
      return false;
    }
    allGood := AllFlagged(flags.value, ImportantNames);
    assert allGood <==> ImportantSet() <= MarkAll(items, ExamineCookie).value;
    if items == [] {
      assert !flags.value[ImportantNames[0]];
    }
  }

  /** A cookie a well-formed export contains: a dict whose name, value and
      domain are strings and whose expiry is a number in range (or absent). */
  predicate WellFormedCookie(c: Json) {
    && c.JObj?
    && Get(c.fields, "name", JStr("")).JStr?
    && Get(c.fields, "value", JStr("")).JStr?
    && Get(c.fields, "domain", JStr("")).JStr?
    && ExpiryOk(Get(c.fields, "expires", JNum(0.0)))
  }

  /** The name `cookie.get('name', '')` reads. */
  function NameOf(c: Json): string
    requires WellFormedCookie(c)
  {
    Get(c.fields, "name", JStr("")).s
  }

  /** On a well-formed cookie list the check passes exactly when all five
      important names occur among the cookie names. */
  lemma ValidIffAllImportantNames(items: seq<Json>)
    requires forall c | c in items :: WellFormedCookie(c)
    ensures CookiesValid(Parsed(JArr(items))) <==>
      forall n | n in ImportantNames :: exists c | c in items :: NameOf(c) == n
  {
    MarkAllClosedForm(items, ExamineCookie);
    assert !SomeCookieRaises(items, ExamineCookie);
    var found := MarkedBy(items, ExamineCookie);
    forall n | n in ImportantNames
      ensures n in found <==> exists c | c in items :: NameOf(c) == n
    {
      if c :| c in items && NameOf(c) == n {
        assert ExamineCookie(c) == CookieSeen(Some(n));
      }
    }
  }

  /** A cookie without a `name` is read as name "" and never counts. */
  lemma NamelessCookieNeverCounts(c: Json)
    requires c.JObj? && "name" !in c.fields
    ensures ExamineCookie(c).CookieRaises? || ExamineCookie(c) == CookieSeen(None)
  {
    assert "" !in ImportantSet();
  }

  /** Cookie expiry matters only by raising: two expiries both in range give
      the same verdict on a cookie, but an expiry that is a string (or
      beyond `fromtimestamp`'s range) makes the whole check fail. */
  lemma ExpiryMattersOnlyByRaising(fields: map<string, Json>, e1: Json, e2: Json, items: seq<Json>)
    ensures ExpiryOk(e1) && ExpiryOk(e2) ==>
      ExamineCookie(JObj(fields["expires" := e1])) == ExamineCookie(JObj(fields["expires" := e2]))
    ensures !ExpiryOk(e1) && JObj(fields["expires" := e1]) in items ==> !CookiesValid(Parsed(JArr(items)))
  {
    var c1 := JObj(fields["expires" := e1]);
    var c2 := JObj(fields["expires" := e2]);
    assert forall k | k != "expires" :: Get(c1.fields, k, JStr("")) == Get(c2.fields, k, JStr(""));
    if !ExpiryOk(e1) && c1 in items {
      MarkAllClosedForm(items, ExamineCookie);
      assert ExamineCookie(c1).CookieRaises?;
    }
  }

  /** The order of the cookies and repeated cookies do not change the
      verdict. */
  lemma CookieOrderIrrelevant(a: seq<Json>, b: seq<Json>)
    requires forall c :: c in a <==> c in b
    ensures CookiesValid(Parsed(JArr(a))) == CookiesValid(Parsed(JArr(b)))
  {
    SameCookiesSameMarks(a, b, ExamineCookie);
  }

  // ---------------------------------------------------------------------------
  // test_config

  const TokenPlaceholder: string := "your_telegram_bot_token_here"

  /** What `test_config` reports: no `.env`, the placeholder token still in
      it, or a token set. */
  datatype ConfigStatus = EnvMissing | TokenNotConfigured | TokenConfigured

  function ConfigCheck(env: Option<string>): (r: ConfigStatus)
    ensures r == EnvMissing <==> env.None?
    ensures r == TokenNotConfigured <==> env.Some? && Contains(env.value, TokenPlaceholder)
  {
    if env.None? then EnvMissing
    else if Contains(env.value, TokenPlaceholder) then TokenNotConfigured
    else TokenConfigured
  }

  /** Any text around the placeholder still counts as not configured. */
  lemma PlaceholderAnywhereIsNotConfigured(before: string, after: string)
    ensures ConfigCheck(Some(before + TokenPlaceholder + after)) == TokenNotConfigured
  {
    var s := before + TokenPlaceholder + after;
    assert s[|before|..|before| + |TokenPlaceholder|] == TokenPlaceholder;
    assert OccursAt(s, TokenPlaceholder, |before|);
  }
}

/** test_auth_state.py: the offline check of the Playwright storage state
    `auth_state.json` that bot_with_storage.py starts from. */
module AuthStateCheck {
  import opened Oracle
  import opened Json

  /** The cookies the storage state must hold; `auth_token`, which the
      cookie-file check also demands, is not among them. */
  const StateNames: seq<string> := ["csrf_access_token", "csrf_refresh_token", "profile", "session_id"]

  function StateSet(): set<string> {
    set n | n in StateNames
  }

  /** The body of the cookie loop on one cookie: `.get` needs a dict, the
      name must be hashable for the lookup, and the domain must support
      `'makefilm.ai' in domain`. */
  function ExamineStateCookie(c: Json): (r: CookieVerdict)
    ensures r.CookieSeen? && r.marks.Some? ==> r.marks.value in StateSet()
    ensures r.CookieSeen? && r.marks.Some? ==> c.JObj? && Get(c.fields, "name", JStr("")) == JStr(r.marks.value)
    ensures r.CookieRaises? <==>
      !c.JObj? || !Hashable(Get(c.fields, "name", JStr(""))) || !SupportsIn(Get(c.fields, "domain", JStr("")))
  {
    if !c.JObj? then CookieRaises
    else
      var name := Get(c.fields, "name", JStr(""));
      var domain := Get(c.fields, "domain", JStr(""));
      if !Hashable(name) || !SupportsIn(domain) then CookieRaises
      else CookieSeen(if name.JStr? && name.s in StateSet() then Some(name.s) else None)
  }

  /** One entry of the `origins` loop completes: it is a dict whose `origin`
      (default "") supports `in`. */
  predicate OriginOk(o: Json) {
    o.JObj? && SupportsIn(Get(o.fields, "origin", JStr("")))
  }

  /** The `origins` block completes: `len` needs a list, dict or string, and
      iterating a non-empty dict or string yields strings, which have no
      `.get`. */
  predicate OriginsOk(origins: Json) {
    match Iterate(origins)
    case NotIterable => false
    case OverStrings(n) => n == 0
    case OverItems(items) => forall o | o in items :: OriginOk(o)
  }

  /** What `test_auth_state` returns.  A state that is not a dict always
      fails: `in` raises on numbers, booleans and null, subscripting a list
      or string raises, and when neither key is found `important_cookies` is
      never bound and the `all_good` loop raises NameError.  A dict without
      `cookies` fails the same way. */
  function StateValid(loaded: Loaded): bool {
    match loaded
    case FileMissing => false
    case Unparsable => false
    case Parsed(state) =>
      if !state.JObj? || "cookies" !in state.fields then false
      else if "origins" in state.fields && !OriginsOk(state.fields["origins"]) then false
      else
        match Iterate(state.fields["cookies"])
        case NotIterable => false
        case OverStrings(_) => false
        case OverItems(items) =>
          match MarkAll(items, ExamineStateCookie)
          case None => false
          case Some(found) => StateSet() <= found
  }

  /** `test_auth_state` as written: the cookie block that binds and fills
      `important_cookies`, the origins block, then the `all_good` loop. */
  method TestAuthState(loaded: Loaded) returns (allGood: bool)
    ensures allGood == StateValid(loaded)
  {
    if !loaded.Parsed? {
      return false;
    }
    var state := loaded.doc;
    if !state.JObj? {
      return false;
    }
    var important: Option<map<string, bool>> := None;
    var items: seq<Json> := [];
    if "cookies" in state.fields {
      match Iterate(state.fields["cookies"]) {
        case NotIterable => return false;
        case OverStrings(n) =>
          if n > 0 {
            return false;
          }
        case OverItems(xs) => items := xs;
      }
      important := FlagCookies(items, ExamineStateCookie, StateNames);
      if important.None? {
        return false;
      }
    }
    if "origins" in state.fields {
      var ok := CheckOrigins(state.fields["origins"]);
      if !ok {
        return false;
      }
    }
    if important.None? {
      // NameError: `important_cookies` was never bound
      return false;
    }
    allGood := AllFlagged(important.value, StateNames);
    assert allGood <==> StateSet() <= MarkAll(items, ExamineStateCookie).value;
    if items == [] {
      assert !important.value[StateNames[0]];
    }
  }

  /** The `origins` loop: it stops at the first entry that raises. */
  method CheckOrigins(origins: Json) returns (ok: bool)
    ensures ok == OriginsOk(origins)
  {
    match Iterate(origins) {
      case NotIterable => return false;
      case OverStrings(n) => return n == 0;
      case OverItems(items) =>
        var i := 0;
        while i < |items|
          invariant 0 <= i <= |items|
          invariant forall j | 0 <= j < i :: OriginOk(items[j])
        {
          var o := items[i];
          if !o.JObj? || !SupportsIn(Get(o.fields, "origin", JStr(""))) {
            assert !OriginOk(items[i]) && items[i] in items;
            return false;
          }
          i := i + 1;
        }
        return true;
    }
  }

  /** A cookie that is a dict with string name and domain. */
  predicate WellFormedCookie(c: Json) {
    && c.JObj?
    && Get(c.fields, "name", JStr("")).JStr?
    && Get(c.fields, "domain", JStr("")).JStr?
  }

  function NameOf(c: Json): string
    requires WellFormedCookie(c)
  {
    Get(c.fields, "name", JStr("")).s
  }

  /** With a well-formed cookie list and no `origins`, the check passes
      exactly when the four names occur among the cookie names. */
  lemma ValidIffAllStateNames(items: seq<Json>)
    requires forall c | c in items :: WellFormedCookie(c)
    ensures StateValid(Parsed(JObj(map["cookies" := JArr(items)]))) <==>
      forall n | n in StateNames :: exists c | c in items :: NameOf(c) == n
  {
    MarkAllClosedForm(items, ExamineStateCookie);
    assert !SomeCookieRaises(items, ExamineStateCookie);
    var found := MarkedBy(items, ExamineStateCookie);
    forall n | n in StateNames
      ensures n in found <==> exists c | c in items :: NameOf(c) == n
    {
      if c :| c in items && NameOf(c) == n {
        assert ExamineStateCookie(c) == CookieSeen(Some(n));
      }
    }
  }

  /** `auth_token` is not required: adding or removing an `auth_token`
      cookie with a string domain does not change the verdict. */
  lemma AuthTokenNotRequired(items: seq<Json>, domain: string)
    ensures var token := JObj(map["name" := JStr("auth_token"), "domain" := JStr(domain)]);
      StateValid(Parsed(JObj(map["cookies" := JArr(items + [token])]))) ==
      StateValid(Parsed(JObj(map["cookies" := JArr(items)])))
  {
    var token := JObj(map["name" := JStr("auth_token"), "domain" := JStr(domain)]);
    var longer := items + [token];
    assert "auth_token" !in StateSet();
    assert ExamineStateCookie(token) == CookieSeen(None);
    assert longer[..|longer| - 1] == items && longer[|longer| - 1] == token;
    assert MarkAll(longer, ExamineStateCookie) == MarkAll(items, ExamineStateCookie);
    CookieListVerdict(longer);
    CookieListVerdict(items);
  }

  /** The verdict on a state holding only a cookie list. */
  lemma CookieListVerdict(items: seq<Json>)
    ensures StateValid(Parsed(JObj(map["cookies" := JArr(items)]))) ==
      (MarkAll(items, ExamineStateCookie).Some? && StateSet() <= MarkAll(items, ExamineStateCookie).value)
  {
    var fields := map["cookies" := JArr(items)];
    assert "origins" !in fields;
    assert Iterate(fields["cookies"]) == OverItems(items);
  }

  /** A storage state without `cookies` always fails, whatever else it
      holds. */
  lemma NoCookiesFails(fields: map<string, Json>)
    requires "cookies" !in fields
    ensures !StateValid(Parsed(JObj(fields)))
  {
  }

  /** The `origins` entry decides only by raising: a well-formed one gives
      the same verdict as none at all, and a malformed one fails the check. */
  lemma OriginsOnlyDecideByRaising(fields: map<string, Json>, origins: Json)
    requires "origins" !in fields
    ensures OriginsOk(origins) ==>
      StateValid(Parsed(JObj(fields["origins" := origins]))) == StateValid(Parsed(JObj(fields)))
    ensures !OriginsOk(origins) ==> !StateValid(Parsed(JObj(fields["origins" := origins])))
  {
    var with := fields["origins" := origins];
    assert "cookies" in with <==> "cookies" in fields;
    if "cookies" in fields {
      assert with["cookies"] == fields["cookies"];
    }
  }
}

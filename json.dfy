/** Parsed JSON as the two cookie validators see it, and the Python
    operations they apply to it.  Each operation that can raise on a value
    of the wrong type says so: in both validators every such exception ends
    in the catch-all `except` that returns False. */
module Json {
  import opened Oracle
  import opened Strings

  /** A value `json.load` produces. */
  datatype Json =
    | JNull
    | JBool(b: bool)
    | JNum(n: real)
    | JStr(s: string)
    | JArr(items: seq<Json>)
    | JObj(fields: map<string, Json>)

  /** What loading the file gave: no file, a parse error, or a value. */
  datatype Loaded = FileMissing | Unparsable | Parsed(doc: Json)

  /** `d.get(key, default)` on a dict. */
  function Get(fields: map<string, Json>, key: string, default: Json): (r: Json)
    ensures key !in fields ==> r == default
  {
    if key in fields then fields[key] else default
  }

  /** Whether `x in some_dict` can hash `x`: lists and dicts cannot be
      hashed and raise TypeError. */
  predicate Hashable(v: Json) {
    !v.JArr? && !v.JObj?
  }

  /** Whether `'makefilm.ai' in v` can be evaluated: strings, lists and dicts
      support `in`; numbers, booleans and None raise TypeError. */
  predicate SupportsIn(v: Json) {
    v.JStr? || v.JArr? || v.JObj?
  }

  /** `len(v)` followed by `for x in v`, as far as the validators can tell:
      a list yields its items; a dict yields its keys and a string its
      characters, all strings, on which the `.get` the loops call next
      raises AttributeError; anything else has no `len` and raises
      TypeError. */
  datatype Iteration = NotIterable | OverItems(items: seq<Json>) | OverStrings(count: nat)

  function Iterate(v: Json): Iteration {
    match v
    case JArr(items) => OverItems(items)
    case JObj(fields) => OverStrings(|fields|)
    case JStr(s) => OverStrings(|s|)
    case _ => NotIterable
  }

  /** What the body of a cookie loop does with one cookie: raise, or go on,
      possibly having set the flag of one tracked name. */
  datatype CookieVerdict = CookieRaises | CookieSeen(marks: Option<string>)

  /** The tracked names a cookie loop has set to True after looking at
      `items` in order, or None when looking at one of them raised. */
  function MarkAll(items: seq<Json>, examine: Json -> CookieVerdict): Option<set<string>> {
    if items == [] then Some({})
    else match MarkAll(items[..|items| - 1], examine)
      case None => None
      case Some(found) =>
        match examine(items[|items| - 1])
        case CookieRaises => None
        case CookieSeen(m) => Some(if m.Some? then found + {m.value} else found)
  }

  predicate SomeCookieRaises(items: seq<Json>, examine: Json -> CookieVerdict) {
    exists c | c in items :: examine(c).CookieRaises?
  }

  /** The names the cookies of `items` mark, whatever their order. */
  function MarkedBy(items: seq<Json>, examine: Json -> CookieVerdict): set<string> {
    set c | c in items && examine(c).CookieSeen? && examine(c).marks.Some? :: examine(c).marks.value
  }

  /** The loop either raises on some cookie, or it has marked exactly the
      names some cookie marks: flags are only ever set, never cleared. */
  lemma {:induction false} MarkAllClosedForm(items: seq<Json>, examine: Json -> CookieVerdict)
    ensures MarkAll(items, examine) ==
      if SomeCookieRaises(items, examine) then None else Some(MarkedBy(items, examine))
  {
    if items != [] {
      var prefix, last := items[..|items| - 1], items[|items| - 1];
      assert items == prefix + [last];
      MarkAllClosedForm(prefix, examine);
      assert forall c :: c in items <==> c in prefix || c == last;
      if !SomeCookieRaises(items, examine) {
        assert !SomeCookieRaises(prefix, examine);
        var v := examine(last);
        assert v.CookieSeen?;
        if v.marks.Some? {
          assert MarkedBy(items, examine) == MarkedBy(prefix, examine) + {v.marks.value};
        } else {
          assert MarkedBy(items, examine) == MarkedBy(prefix, examine);
        }
      } else if !SomeCookieRaises(prefix, examine) {
        assert examine(last).CookieRaises?;
      }
    } else {
      assert MarkedBy(items, examine) == {};
    }
  }

  /** Reordering the cookies, repeating some or dropping repeats changes
      nothing. */
  lemma SameCookiesSameMarks(a: seq<Json>, b: seq<Json>, examine: Json -> CookieVerdict)
    requires forall c :: c in a <==> c in b
    ensures MarkAll(a, examine) == MarkAll(b, examine)
  {
    MarkAllClosedForm(a, examine);
    MarkAllClosedForm(b, examine);
    assert MarkedBy(a, examine) == MarkedBy(b, examine);
  }

  /** The cookie loop of both validators, as written: a dict of flags, one
      per tracked name and all False, set to True in place as the cookies
      are looked at; None when looking at a cookie raised. */
  method FlagCookies(items: seq<Json>, examine: Json -> CookieVerdict, names: seq<string>)
    returns (flags: Option<map<string, bool>>)
    ensures flags.None? <==> MarkAll(items, examine).None?
    ensures flags.Some? ==> flags.value.Keys == (set n | n in names) + MarkAll(items, examine).value
    ensures flags.Some? ==> forall n | n in flags.value :: flags.value[n] == (n in MarkAll(items, examine).value)
  {
    var important: map<string, bool> := map n | n in names :: false;
    var i := 0;
    while i < |items|
      invariant 0 <= i <= |items|
      invariant MarkAll(items[..i], examine).Some?
      invariant important.Keys == (set n | n in names) + MarkAll(items[..i], examine).value
      invariant forall n | n in important :: important[n] == (n in MarkAll(items[..i], examine).value)
    {
      assert items[..i + 1][..i] == items[..i];
      match examine(items[i]) {
        case CookieRaises =>
          MarkAllClosedForm(items, examine);
          assert items[i] in items;
          return None;
        case CookieSeen(m) =>
          if m.Some? {
            important := important[m.value := true];
          }
      }
      i := i + 1;
    }
    assert items[..i] == items;
    flags := Some(important);
  }

  /** The `all_good` loop over the flags of the tracked names. */
  method AllFlagged(flags: map<string, bool>, names: seq<string>) returns (allGood: bool)
    requires forall n | n in names :: n in flags
    ensures allGood <==> forall n | n in names :: flags[n]
  {
    allGood := true;
    var k := 0;
    while k < |names|
      invariant 0 <= k <= |names|
      invariant allGood <==> forall j | 0 <= j < k :: flags[names[j]]
    {
      if !flags[names[k]] {
        allGood := false;
      }
      k := k + 1;
    }
  }
}

/** Result-URL extraction shared by bot.py and bot_auto_auth.py: the result
    selectors in order (each waited for, then queried once), `href` before
    `data-result-url` on a found element, a scan of the page text as the last
    resort, and the site address put in front of a URL that starts with
    "/". */
module ResultUrl {
  import opened Oracle
  import opened Strings
  import opened Ranked

  /** The generator page's address, prefixed to a relative result URL. */
  const MakefilmUrl: string := "https://makefilm.ai/workspace/image-generator"

  /** The URL one found result element gives.  A truthy `href` wins; when
      `href` is missing or empty, a truthy `data-result-url` is used; when
      reading either attribute raises, the exception moves the loop on to the
      next selector, so the element gives nothing. */
  function ElementUrl(el: Element): (r: Option<string>)
    ensures r.Some? ==> r.value != ""
    ensures r.Some? ==> el.Attribute("href") == AttrValue(r.value) || el.Attribute("data-result-url") == AttrValue(r.value)
  {
    var href := el.Attribute("href");
    if href.AttrThrows? then None
    else if Truthy(href) then Some(href.value)
    else
      var data := el.Attribute("data-result-url");
      if Truthy(data) then Some(data.value) else None
  }

  /** `href` is preferred: once it is truthy, `data-result-url` is never
      looked at; and `data-result-url` alone is used exactly when `href`
      reads back as missing or empty. */
  lemma HrefBeforeDataUrl(el: Element)
    ensures Truthy(el.Attribute("href")) ==> ElementUrl(el) == Some(el.Attribute("href").value)
    ensures ElementUrl(el).Some? && !Truthy(el.Attribute("href")) ==>
      !el.Attribute("href").AttrThrows? && ElementUrl(el) == Some(el.Attribute("data-result-url").value)
    ensures !Truthy(el.Attribute("href")) && !Truthy(el.Attribute("data-result-url")) ==> ElementUrl(el).None?
  {
  }

  /** A selector gives the result when its query finds an element that
      gives a URL; any exception on the way counts as "no". */
  function Yields(view: View): Selector -> bool {
    sel => view(sel).Found? && ElementUrl(view(sel).element).Some?
  }

  /** What `re.findall` over `page.content()` produced: the matches in page
      order, or an exception (which the code logs and ignores). */
  datatype PageText = ContentThrows | Matches(urls: seq<string>)

  /** The step the code calls making a relative link absolute: only a URL
      with a leading "/" is changed, by putting the generator's address in
      front of it. */
  function Absolutize(url: string): string {
    if StartsWith(url, "/") then MakefilmUrl + url else url
  }

  /** Absolutizing keeps the URL as a suffix, never leaves a leading slash,
      and is idempotent. */
  lemma AbsolutizeProperties(url: string)
    ensures var r := Absolutize(url);
      && r[|r| - |url|..] == url
      && !StartsWith(r, "/")
      && Absolutize(r) == r
      && (StartsWith(url, "/") <==> r != url)
  {
    var r := Absolutize(url);
    if StartsWith(url, "/") {
      assert MakefilmUrl[0] == 'h' by {
        assert MakefilmUrl == ['h'] + MakefilmUrl[1..];
      }
      assert r[0] == MakefilmUrl[0];
      assert r[|r| - |url|..] == url;
    } else {
      assert r[|r| - |url|..] == url;
    }
  }

  /** Only a leading "/" is acted on: a relative path without one is
      returned unchanged, still relative, and a protocol-relative URL gets the
      generator's address in front of its `//`. */
  lemma OnlyLeadingSlashIsPrefixed(path: string, host: string)
    requires !StartsWith(path, "/")
    ensures Absolutize(path) == path
    ensures Absolutize("//" + host) == MakefilmUrl + "//" + host
  {
    assert StartsWith("//" + host, "/") by {
      assert ("//" + host)[..1] == "/";
    }
  }

  /** The URL before the leading-"/" step: the first selector that
      yields one decides; otherwise the first match in the page text. */
  function RawResultUrl(view: View, sels: seq<Selector>, text: PageText): string {
    match FirstHit(sels, Yields(view))
    case Some(i) => ElementUrl(view(sels[i]).element).value
    case None => if text.Matches? && |text.urls| > 0 then text.urls[0] else ""
  }

  /** The extraction's outcome: `None` stands for the "could not get the
      result link" exception. */
  function ResultUrlOf(view: View, sels: seq<Selector>, text: PageText): (r: Option<string>)
    ensures r.Some? ==> r.value != "" && !StartsWith(r.value, "/")
    ensures r.None? <==>
      (forall i | 0 <= i < |sels| :: !Yields(view)(sels[i])) &&
      !(text.Matches? && |text.urls| > 0 && text.urls[0] != "")
  {
    var raw := RawResultUrl(view, sels, text);
    if raw == "" then None
    else
      AbsolutizeProperties(raw);
      Some(Absolutize(raw))
  }

  /** The result loop, the text scan and the absolutizing step in order. */
  method ExtractResultUrl(view: View, sels: seq<Selector>, text: PageText)
    returns (url: Option<string>, tried: seq<Selector>)
    ensures url == ResultUrlOf(view, sels, text)
    ensures tried == Consulted(sels, FirstHit(sels, Yields(view)))
  {
    var k;
    k, tried := FirstWins(sels, Yields(view));
    var raw := "";
    if k.Some? {
      raw := ElementUrl(view(sels[k.value]).element).value;
    }
    if raw == "" {
      if text.Matches? && |text.urls| > 0 {
        raw := text.urls[0];
      }
    }
    if raw == "" {
      url := None;
    } else {
      if StartsWith(raw, "/") {
        raw := MakefilmUrl + raw;
      }
      url := Some(raw);
    }
  }

  /** The page text is a fallback only: once a selector yields a URL, the
      text cannot change the outcome; and the winner is the first yielding
      selector, absolutized. */
  lemma SelectorsBeforeText(view: View, sels: seq<Selector>, t1: PageText, t2: PageText, i: nat)
    requires i < |sels| && Yields(view)(sels[i])
    requires forall j | 0 <= j < i :: !Yields(view)(sels[j])
    ensures ResultUrlOf(view, sels, t1) == ResultUrlOf(view, sels, t2)
    ensures ResultUrlOf(view, sels, t1) == Some(Absolutize(ElementUrl(view(sels[i]).element).value))
  {
    var k := FirstHit(sels, Yields(view));
    assert k.Some?;
  }

  /** Without a yielding selector, the first text match (absolutized) is the
      result, and a failed or empty scan is the exception. */
  lemma TextFallback(view: View, sels: seq<Selector>, text: PageText)
    requires forall i | 0 <= i < |sels| :: !Yields(view)(sels[i])
    ensures text.Matches? && |text.urls| > 0 && text.urls[0] != "" ==>
      ResultUrlOf(view, sels, text) == Some(Absolutize(text.urls[0]))
    ensures text.ContentThrows? || text == Matches([]) ==> ResultUrlOf(view, sels, text).None?
  {
  }
}

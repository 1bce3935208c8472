/**
 * `_normalize_url` in `utils/scrape.py`: the scheme repairs applied to an article URL before
 * it is fetched. `urlparse` followed by `urlunparse` is the parameter `reparse`, which gives
 * `None` when it raised (the error is logged and the repaired URL kept).
 */
module UrlRepair {
  import opened Wrappers
  import opened PyText

  const Http: string := "http://"
  const Https: string := "https://"

  predicate HasScheme(url: string) {
    StartsWith(url, Http) || StartsWith(url, Https)
  }

  /** Step one: a URL that starts with `http:/` and only one slash has every `http:/` doubled. */
  function FixHttp(url: string): string {
    if StartsWith(url, "http:/") && !StartsWith(url, Http) then ReplaceAll(url, "http:/", Http) else url
  }

  /** Step two: the same for `https:/`. */
  function FixHttps(url: string): string {
    if StartsWith(url, "https:/") && !StartsWith(url, Https) then ReplaceAll(url, "https:/", Https) else url
  }

  /** Step three: a URL still without a scheme gets `https://`, after its leading slashes are dropped. */
  function AddScheme(url: string): (r: string)
    ensures HasScheme(r)
  {
    if !HasScheme(url) then Https + TrimLeftOf(url, {'/'}) else url
  }

  /** The three repairs in order; whatever the input, the result starts with a scheme. */
  function RepairScheme(url: string): (r: string)
    ensures HasScheme(r)
  {
    AddScheme(FixHttps(FixHttp(url)))
  }

  /** `_normalize_url`: the repaired URL, rebuilt by the URL parser when that succeeds. */
  function NormalizeUrl(url: string, reparse: string -> Option<string>): (r: string)
    ensures reparse(RepairScheme(url)).None? ==> r == RepairScheme(url)
    ensures reparse(RepairScheme(url)).Some? ==> r == reparse(RepairScheme(url)).value
  {
    var repaired := RepairScheme(url);
    match reparse(repaired)
    case None => repaired
    case Some(u) => u
  }

  lemma HttpsNotHttp(url: string)
    requires StartsWith(url, Https)
    ensures !StartsWith(url, "http:/")
  {
    assert url[4] == 's';
  }

  lemma HttpNotHttps(url: string)
    requires StartsWith(url, Http)
    ensures !StartsWith(url, "https:/")
  {
    assert url[4] == ':';
  }

  /** A URL that already starts with `http://` or `https://` goes through the repairs unchanged. */
  lemma RepairKeepsScheme(url: string)
    requires HasScheme(url)
    ensures RepairScheme(url) == url
  {
    if StartsWith(url, Https) {
      HttpsNotHttp(url);
    } else {
      HttpNotHttps(url);
    }
  }

  /** Repairing twice is repairing once. */
  lemma RepairIdempotent(url: string)
    ensures RepairScheme(RepairScheme(url)) == RepairScheme(url)
  {
    RepairKeepsScheme(RepairScheme(url));
  }

  /** A URL with a single slash after `http:` has every `http:/` in it doubled, and nothing else happens. */
  lemma RepairHttpSingleSlash(url: string)
    requires StartsWith(url, "http:/") && !StartsWith(url, Http)
    ensures RepairScheme(url) == ReplaceAll(url, "http:/", Http)
  {
    ReplaceAtStart(url, "http:/", Http);
    RepairKeepsScheme(ReplaceAll(url, "http:/", Http));
  }

  /** The same for a single slash after `https:`. */
  lemma RepairHttpsSingleSlash(url: string)
    requires StartsWith(url, "https:/") && !StartsWith(url, Https)
    ensures RepairScheme(url) == ReplaceAll(url, "https:/", Https)
  {
    assert url[4] == 's';
    ReplaceAtStart(url, "https:/", Https);
    RepairKeepsScheme(ReplaceAll(url, "https:/", Https));
  }

  /** A URL that does not start with `http:/` or `https:/` gets `https://` in front of it, minus its leading slashes. */
  lemma RepairNoScheme(url: string)
    requires !StartsWith(url, "http:/") && !StartsWith(url, "https:/")
    ensures RepairScheme(url) == Https + TrimLeftOf(url, {'/'})
  {
    if StartsWith(url, Http) {
      HttpPrefix(url);
    } else if StartsWith(url, Https) {
      HttpsPrefix(url);
    }
  }

  lemma HttpPrefix(url: string)
    requires StartsWith(url, Http)
    ensures StartsWith(url, "http:/")
  {
    assert url[..6] == url[..7][..6];
  }

  lemma HttpsPrefix(url: string)
    requires StartsWith(url, Https)
    ensures StartsWith(url, "https:/")
  {
    assert url[..7] == url[..8][..7];
  }

  /** When the URL parser raises, the repaired URL is returned as it is. */
  lemma NormalizeUrlParseFailure(url: string, reparse: string -> Option<string>)
    requires reparse(RepairScheme(url)).None?
    ensures NormalizeUrl(url, reparse) == RepairScheme(url)
    ensures HasScheme(NormalizeUrl(url, reparse))
  {
  }

  // ---------------------------------------------------------------- the doubling of every `http:/`

  /** A single-slash `http:/` URL that carries, after `a`, a second URL `http://` + `b`. */
  function Embedded(a: string, b: string): string {
    "http:/" + (a + ("http:/" + ("/" + b)))
  }

  /**
   * Step one doubles the slash of every `http:/` in the URL, not only the one after the
   * scheme: a URL carrying another URL (as a query parameter, say) gets that one damaged,
   * so the result is not the input with one slash inserted after the scheme.
   */
  lemma FixHttpDamagesEmbeddedUrl(a: string, b: string)
    requires 'h' !in a && 'h' !in b && (a == [] || a[0] != '/')
    ensures StartsWith(Embedded(a, b), "http:/") && !StartsWith(Embedded(a, b), Http)
    ensures RepairScheme(Embedded(a, b)) == Http + (a + (Http + ("/" + b)))
    ensures RepairScheme(Embedded(a, b)) != Http + Embedded(a, b)[6..]
  {
    var u := Embedded(a, b);
    assert u[..6] == "http:/" && u[6..] == a + ("http:/" + ("/" + b));
    assert u[6] != '/' by {
      if a == [] {
        assert u[6] == 'h';
      } else {
        assert u[6] == a[0];
      }
    }
    EmbeddedReplaced(a, b);
    RepairHttpSingleSlash(u);
  }

  lemma EmbeddedReplaced(a: string, b: string)
    requires 'h' !in a && 'h' !in b
    ensures ReplaceAll(Embedded(a, b), "http:/", Http) == Http + (a + (Http + ("/" + b)))
  {
    ReplaceAtHead(a + ("http:/" + ("/" + b)));
    ReplaceSkips(a, "http:/" + ("/" + b));
    ReplaceAtHead("/" + b);
    ReplaceSkips("/" + b, []);
    assert ("/" + b) + [] == "/" + b;
  }

  lemma ReplaceAtHead(t: string)
    ensures ReplaceAll("http:/" + t, "http:/", Http) == Http + ReplaceAll(t, "http:/", Http)
  {
    var s := "http:/" + t;
    assert s[..6] == "http:/" && s[6..] == t;
  }

  lemma ReplaceKeeps(c: char, t: string)
    requires c != 'h'
    ensures ReplaceAll([c] + t, "http:/", Http) == [c] + ReplaceAll(t, "http:/", Http)
  {
    var s := [c] + t;
    assert s[1..] == t;
    if |s| < 6 {
      ReplaceAbsent(t, "http:/", Http);
    }
  }

  /** Text without an `h` passes through the replacement unchanged. */
  lemma {:induction false} ReplaceSkips(a: string, t: string)
    requires 'h' !in a
    ensures ReplaceAll(a + t, "http:/", Http) == a + ReplaceAll(t, "http:/", Http)
    decreases |a|
  {
    if a == [] {
      assert a + t == t;
    } else {
      var c, rest := a[0], a[1..];
      ReplaceSkips(rest, t);
      ReplaceKeeps(c, rest + t);
      SplitHead(a, t);
      SplitHead(a, ReplaceAll(t, "http:/", Http));
    }
  }

  lemma SplitHead(a: string, t: string)
    requires a != []
    ensures a + t == [a[0]] + (a[1..] + t)
  {
  }

  /** The repair as evidently meant: only the slash missing after the scheme is inserted. */
  function RepairSchemeOnce(url: string): (r: string)
    ensures HasScheme(r)
  {
    var u1 := if StartsWith(url, "http:/") && !StartsWith(url, Http) then Http + url[6..] else url;
    var u2 := if StartsWith(u1, "https:/") && !StartsWith(u1, Https) then Https + u1[7..] else u1;
    AddScheme(u2)
  }

  /**
   * The meant repair changes only the scheme: a single-slash `http:/` or `https:/` URL keeps
   * everything after it, a URL with a scheme is unchanged, and repairing twice is repairing once.
   */
  lemma RepairSchemeOnceSpec(url: string)
    ensures StartsWith(url, "http:/") && !StartsWith(url, Http) ==> RepairSchemeOnce(url) == Http + url[6..]
    ensures StartsWith(url, "https:/") && !StartsWith(url, Https) ==> RepairSchemeOnce(url) == Https + url[7..]
    ensures HasScheme(url) ==> RepairSchemeOnce(url) == url
    ensures RepairSchemeOnce(RepairSchemeOnce(url)) == RepairSchemeOnce(url)
  {
    if StartsWith(url, "http:/") && !StartsWith(url, Http) {
      var r := Http + url[6..];
      assert r[..7] == Http;
      HttpNotHttps(r);
    } else if StartsWith(url, "https:/") && !StartsWith(url, Https) {
      assert url[4] == 's';
      var r := Https + url[7..];
      assert r[..8] == Https;
      HttpsNotHttp(r);
    } else if HasScheme(url) {
      if StartsWith(url, Https) {
        HttpsNotHttp(url);
      } else {
        HttpNotHttps(url);
      }
    }
    var r := RepairSchemeOnce(url);
    if StartsWith(r, Https) {
      HttpsNotHttp(r);
    } else {
      HttpNotHttps(r);
    }
  }
}

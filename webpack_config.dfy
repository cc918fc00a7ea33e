/**
 * The computed parts of the web app's bundler configuration: the build-time brand values
 * read from the brand file, the public path, the content security policy, and the shared
 * module table handed to module federation.
 *
 * The bundler's environment is passed in: whether the build is a development build, the
 * site URL environment variable, the outcome of reading the brand file, the URL parser's
 * pathname, and the package manifest's dependency versions.
 */
module WebpackConfig {
  import opened Options
  import opened BrandScan

  // ---------- Build-time brand values ----------

  /** The outcome of reading the brand file: its text, or a read that threw. */
  datatype FileRead = Content(text: string) | ReadFailed

  /** The three brand values the bundler writes into the page title and the app manifest. */
  datatype BuildBrand = BuildBrand(siteName: string, siteNameShort: string, description: string)

  const DefaultSiteName := "Mattermost1"
  const DefaultDescription := "Mattermost is an open source, self-hosted Slack-alternative"

  /** The values used when the brand file cannot be read or lacks an entry. */
  const Defaults := BuildBrand(DefaultSiteName, DefaultSiteName, DefaultDescription)

  const SiteNameKey := "SITE_NAME:"
  const SiteNameShortKey := "SITE_NAME_SHORT:"
  const MetaKey := "META:"
  const DescriptionKey := "DESCRIPTION:"

  /** A quote-free, non-empty value. */
  predicate WellFormedValue(v: string)
  {
    v != "" && forall m :: 0 <= m < |v| ==> !IsQuote(v[m])
  }

  /**
   * The group captured by `key\s*['"]([^'"]+)['"]` at its leftmost match in `s`, or `None`
   * when the expression matches nowhere.
   */
  function Capture(s: string, key: string): (r: Option<string>)
    ensures r.Some? <==> exists i: nat, j: nat, k: nat :: ValueMatch(s, key, i, j, k)
    ensures r.Some? ==> WellFormedValue(r.value)
    ensures r.Some? ==> exists i: nat, j: nat, k: nat ::
      ValueMatch(s, key, i, j, k) && r.value == s[j + 1..k]
      && forall i', j', k' :: 0 <= i' < i && 0 <= j' && 0 <= k' ==> !ValueMatch(s, key, i', j', k')
  {
    SearchValue(s, key);
    CaptureWellFormed(s, key);
    match Search(s, QuotedValue(key))
    case Some(h) => Some(h.group)
    case None => None
  }

  /**
   * The text matched by `key\s*\{[\s\S]*?\}` at its leftmost match in `s`: from the key up to
   * and including the first closing brace after the opening one.
   */
  function Section(s: string, key: string): (r: Option<string>)
    ensures r.Some? <==> exists i: nat, j: nat, c: nat :: SectionMatch(s, key, i, j, c)
    ensures r.Some? ==> exists i: nat, j: nat, c: nat ::
      SectionMatch(s, key, i, j, c) && r.value == s[i..c + 1]
      && forall i', j', c' :: 0 <= i' < i && 0 <= j' && 0 <= c' ==> !SectionMatch(s, key, i', j', c')
  {
    SearchSection(s, key);
    match Search(s, BraceSection(key))
    case Some(h) => Some(h.whole)
    case None => None
  }

  /** The site-name key never matches where the short-name key starts, so the two entries stay apart. */
  lemma SiteNameKeyMissesShortKey(s: string, i: nat)
    requires HasAt(s, i, SiteNameShortKey)
    ensures !HasAt(s, i, SiteNameKey)
  {
    assert s[i..i + |SiteNameShortKey|][9] == '_';
    assert s[i..i + |SiteNameKey|][9] == s[i + 9];
  }

  /**
   * Reads the brand values out of the brand file's text. Each value starts at its default and
   * is replaced by a match; the short name falls back to the (possibly replaced) site name,
   * and the description is looked for only inside the first `META: { … }` section.
   */
  method GetBrandConfigForBuild(file: FileRead) returns (cfg: BuildBrand)
    ensures file.ReadFailed? ==> cfg == Defaults
    ensures file.Content? ==>
      && cfg.siteName == Capture(file.text, SiteNameKey).GetOr(DefaultSiteName)
      && cfg.siteNameShort == Capture(file.text, SiteNameShortKey).GetOr(cfg.siteName)
      && cfg.description == (match Section(file.text, MetaKey)
                             case Some(meta) => Capture(meta, DescriptionKey).GetOr(DefaultDescription)
                             case None => DefaultDescription)
    ensures cfg.siteName != "" && cfg.siteNameShort != "" && cfg.description != ""
  {
    cfg := Defaults;
    if file.ReadFailed? {
      return;
    }
    var content := file.text;

    var siteNameMatch := Capture(content, SiteNameKey);
    if siteNameMatch.Some? {
      cfg := cfg.(siteName := siteNameMatch.value);
    }

    var siteNameShortMatch := Capture(content, SiteNameShortKey);
    if siteNameShortMatch.Some? {
      cfg := cfg.(siteNameShort := siteNameShortMatch.value);
    } else {
      cfg := cfg.(siteNameShort := cfg.siteName);
    }

    var metaSection := Section(content, MetaKey);
    if metaSection.Some? {
      var metaDescriptionMatch := Capture(metaSection.value, DescriptionKey);
      if metaDescriptionMatch.Some? {
        cfg := cfg.(description := metaDescriptionMatch.value);
      }
    }
  }

  // ---------- Public path ----------

  /** `p` with a `/` appended unless it already ends with one. */
  function WithTrailingSlash(p: string): (r: string)
    ensures |r| > 0 && r[|r| - 1] == '/'
    ensures |p| <= |r| <= |p| + 1 && r[..|p|] == p
    ensures r == p <==> (|p| > 0 && p[|p| - 1] == '/')
  {
    if |p| > 0 && p[|p| - 1] == '/' then p else p + "/"
  }

  /** Normalising twice is normalising once. */
  lemma WithTrailingSlashIdempotent(p: string)
    ensures WithTrailingSlash(WithTrailingSlash(p)) == WithTrailingSlash(p)
  {
  }

  /**
   * The public path assets are served from: `/` unless this is a development build with a
   * non-empty site URL, in which case it is the URL's pathname with a trailing slash.
   * `pathnameOf` is the URL parser; `None` means it throws, which aborts the build.
   */
  method PublicPath(dev: bool, siteUrlEnv: Option<string>, pathnameOf: string -> Option<string>)
    returns (publicPath: Option<string>)
    ensures publicPath.Some? ==> |publicPath.value| > 0 && publicPath.value[|publicPath.value| - 1] == '/'
    ensures !dev || siteUrlEnv.GetOr("") == "" ==> publicPath == Some("/")
    ensures dev && siteUrlEnv.GetOr("") != "" ==>
      (publicPath.None? <==> pathnameOf(siteUrlEnv.value).None?)
      && (publicPath.Some? ==> publicPath.value == WithTrailingSlash(pathnameOf(siteUrlEnv.value).value))
  {
    var path := "/";
    if dev {
      var siteURL := siteUrlEnv.GetOr("");
      if siteURL != "" {
        var pathname := pathnameOf(siteURL);
        if pathname.None? {
          return None;
        }
        path := WithTrailingSlash(pathname.value);
      }
    }
    publicPath := Some(path);
  }

  // ---------- Content security policy ----------

  const CspBase := "script-src 'self' js.stripe.com/v3"
  const UnsafeEval := "'unsafe-eval'"
  const ConnectDirective := "connect-src"
  const ConnectSrc := ConnectDirective + " 'self' ws://localhost:* http://localhost:* https://localhost:* chrome-extension:*"

  /** `word` occurs somewhere in `s`. */
  ghost predicate Contains(s: string, word: string)
  {
    exists i: nat :: HasAt(s, i, word)
  }

  /** A word with a character that `s` lacks does not occur in `s`. */
  lemma MissingCharMeansAbsent(s: string, word: string, m: nat)
    requires m < |word|
    requires forall k :: 0 <= k < |s| ==> s[k] != word[m]
    ensures !Contains(s, word)
  {
    forall i: nat
      ensures !HasAt(s, i, word)
    {
      if i + |word| <= |s| {
        assert s[i..i + |word|][m] == s[i + m];
      }
    }
  }

  /** A word occurring in `a` occurs in `a + b`. */
  lemma ContainsExtends(a: string, b: string, word: string, i: nat)
    requires HasAt(a, i, word)
    ensures Contains(a + b, word)
  {
    assert (a + b)[i..i + |word|] == a[i..i + |word|];
    assert HasAt(a + b, i, word);
  }

  /**
   * The policy's `script-src` directive, which in a development build also allows `eval`
   * (for source maps) and is followed by a `connect-src` directive for the local dev server.
   */
  method GenerateCSP(dev: bool) returns (csp: string)
    ensures |csp| >= |CspBase| && csp[..|CspBase|] == CspBase
    ensures dev ==> csp == CspBase + " " + UnsafeEval + "; " + ConnectSrc
    ensures !dev ==> csp == CspBase
    ensures Contains(csp, UnsafeEval) <==> dev
    ensures Contains(csp, ConnectSrc) <==> dev
  {
    csp := CspBase;
    if dev {
      csp := csp + " " + UnsafeEval;
      csp := csp + "; " + ConnectSrc;
      DevPolicyHasDevClauses();
    } else {
      BasePolicyLacksDevClauses();
    }
  }

  /** The production policy has neither the `eval` source nor the `connect-src` directive. */
  lemma BasePolicyLacksDevClauses()
    ensures !Contains(CspBase, UnsafeEval) && !Contains(CspBase, ConnectSrc)
  {
    assert forall k :: 0 <= k < |CspBase| ==> CspBase[k] != 'u' && CspBase[k] != 'n';
    MissingCharMeansAbsent(CspBase, UnsafeEval, 1);
    MissingCharMeansAbsent(CspBase, ConnectSrc, 2);
  }

  /** The development policy has both. */
  lemma DevPolicyHasDevClauses()
    ensures Contains(CspBase + " " + UnsafeEval + "; " + ConnectSrc, UnsafeEval)
    ensures Contains(CspBase + " " + UnsafeEval + "; " + ConnectSrc, ConnectSrc)
  {
    var csp := CspBase + " " + UnsafeEval + "; " + ConnectSrc;
    ContainsExtends(CspBase + " " + UnsafeEval, "; " + ConnectSrc, UnsafeEval, |CspBase| + 1);
    assert csp == (CspBase + " " + UnsafeEval) + ("; " + ConnectSrc);
    assert HasAt(csp, |csp| - |ConnectSrc|, ConnectSrc);
  }

  // ---------- Shared modules ----------

  /** One module-federation sharing entry. `None` stands for an undefined version. */
  datatype SharedModule = SharedModule(
    singleton: bool,
    strictVersion: bool,
    requiredVersion: Option<string>,
    version: Option<string>)

  /** The manifest's version of `name`, if it lists one. */
  function DependencyVersion(dependencies: map<string, string>, name: string): (r: Option<string>)
  {
    if name in dependencies then Some(dependencies[name]) else None
  }

  /** The entry `makeSharedModules` gives `name`, stated field by field. */
  predicate IsSharedEntry(m: SharedModule, name: string, singleton: bool, dependencies: map<string, string>)
  {
    && m.singleton == singleton
    && m.strictVersion == singleton
    && m.version == DependencyVersion(dependencies, name)
    && m.requiredVersion == (if singleton then DependencyVersion(dependencies, name) else None)
  }

  /**
   * The sharing table for `packageNames`: exactly one entry per listed name, each pinned to the
   * manifest's version, and strict about it exactly when `singleton` is set.
   */
  method MakeSharedModules(packageNames: seq<string>, singleton: bool, dependencies: map<string, string>)
    returns (shared: map<string, SharedModule>)
    ensures shared.Keys == set n | n in packageNames
    ensures forall n :: n in shared ==> IsSharedEntry(shared[n], n, singleton, dependencies)
  {
    shared := map[];
    for i := 0 to |packageNames|
      invariant shared.Keys == set n | n in packageNames[..i]
      invariant forall n :: n in shared ==> IsSharedEntry(shared[n], n, singleton, dependencies)
    {
      var packageName := packageNames[i];
      var version := DependencyVersion(dependencies, packageName);
      shared := shared[packageName := SharedModule(
        singleton,
        singleton,
        if singleton then version else None,
        version)];
      assert packageNames[..i + 1] == packageNames[..i] + [packageName];
    }
    assert packageNames[..|packageNames|] == packageNames;
  }
}

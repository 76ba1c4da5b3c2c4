/**
 * The pure request classifiers: whether a path is protected (in prefix,
 * suffix or regular-expression mode) and whether a user agent is exempt.
 */
module Classifier {
  import opened GoStrings

  /** The path's extension, without its leading dot. */
  function BareExt(path: string): string
  {
    TrimPrefix(Ext(path), ".")
  }

  /**
   * The extension gate shared by the three modes: a path without an
   * extension passes; one with an extension passes when the extension
   * equals a protected extension, ignoring case.
   */
  predicate ExtensionProtected(path: string, exts: seq<string>)
  {
    BareExt(path) == "" || exists i :: 0 <= i < |exts| && EqualFold(BareExt(path), exts[i])
  }

  predicate SomePrefixOf(s: string, prefixes: seq<string>)
  {
    exists i :: 0 <= i < |prefixes| && HasPrefix(s, prefixes[i])
  }

  predicate SomeSuffixOf(s: string, suffixes: seq<string>)
  {
    exists i :: 0 <= i < |suffixes| && HasSuffix(s, suffixes[i])
  }

  predicate SomeMatch(patterns: seq<string>, path: string, matches: (string, string) -> bool)
  {
    exists i :: 0 <= i < |patterns| && matches(patterns[i], path)
  }

  /**
   * Prefix mode: some protected route is a prefix of the path, no excluded
   * route is, and the extension gate passes. The exclusion does not depend on
   * the route being tried, so one matching exclusion rules the path out.
   */
  predicate PrefixProtected(path: string, routes: seq<string>, excludes: seq<string>, exts: seq<string>)
  {
    SomePrefixOf(path, routes) && !SomePrefixOf(path, excludes) && ExtensionProtected(path, exts)
  }

  /** The path with its extension (dot included) cut off. */
  function CleanPath(path: string): (r: string)
    ensures r + Ext(path) == path
  {
    if Ext(path) != "" then TrimSuffix(path, Ext(path)) else path
  }

  /**
   * Suffix mode: on the path without its extension, some protected route is
   * a suffix and no excluded route is a prefix; the extension gate is the same.
   */
  predicate SuffixProtected(path: string, routes: seq<string>, excludes: seq<string>, exts: seq<string>)
  {
    SomeSuffixOf(CleanPath(path), routes) && !SomePrefixOf(CleanPath(path), excludes) && ExtensionProtected(path, exts)
  }

  /**
   * Regular-expression mode: some protected pattern matches the path, no
   * excluded pattern does, and the extension gate passes.
   */
  predicate RegexProtected(path: string, routes: seq<string>, excludes: seq<string>, exts: seq<string>,
                           matches: (string, string) -> bool)
  {
    SomeMatch(routes, path, matches) && !SomeMatch(excludes, path, matches) && ExtensionProtected(path, exts)
  }

  method AnyPrefixOf(s: string, prefixes: seq<string>) returns (b: bool)
    ensures b == SomePrefixOf(s, prefixes)
  {
    for j := 0 to |prefixes|
      invariant forall k :: 0 <= k < j ==> !HasPrefix(s, prefixes[k])
    {
      if HasPrefix(s, prefixes[j]) {
        return true;
      }
    }
    return false;
  }

  method AnyMatch(patterns: seq<string>, path: string, matches: (string, string) -> bool) returns (b: bool)
    ensures b == SomeMatch(patterns, path, matches)
  {
    for j := 0 to |patterns|
      invariant forall k :: 0 <= k < j ==> !matches(patterns[k], path)
    {
      if matches(patterns[j], path) {
        return true;
      }
    }
    return false;
  }

  /** The extension gate, as each mode's loop evaluates it for a candidate route. */
  method CheckExtension(path: string, exts: seq<string>) returns (b: bool)
    ensures b == ExtensionProtected(path, exts)
  {
    var ext := BareExt(path);
    if ext == "" {
      return true;
    }
    for j := 0 to |exts|
      invariant forall k :: 0 <= k < j ==> !EqualFold(ext, exts[k])
    {
      if EqualFold(ext, exts[j]) {
        return true;
      }
    }
    return false;
  }

  /** `RouteIsProtectedPrefix`. */
  method RouteIsProtectedPrefix(routes: seq<string>, excludes: seq<string>, exts: seq<string>, path: string)
    returns (r: bool)
    ensures r == PrefixProtected(path, routes, excludes, exts)
  {
    for i := 0 to |routes|
      invariant forall k :: 0 <= k < i ==> !(HasPrefix(path, routes[k]) && !SomePrefixOf(path, excludes) && ExtensionProtected(path, exts))
    {
      if !HasPrefix(path, routes[i]) {
        continue;
      }
      var excluded := AnyPrefixOf(path, excludes);
      if excluded {
        continue;
      }
      var extOk := CheckExtension(path, exts);
      if extOk {
        return true;
      }
    }
    return false;
  }

  /** `RouteIsProtectedSuffix`. */
  method RouteIsProtectedSuffix(routes: seq<string>, excludes: seq<string>, exts: seq<string>, path: string)
    returns (r: bool)
    ensures r == SuffixProtected(path, routes, excludes, exts)
  {
    for i := 0 to |routes|
      invariant forall k :: 0 <= k < i ==>
                  !(HasSuffix(CleanPath(path), routes[k]) && !SomePrefixOf(CleanPath(path), excludes) && ExtensionProtected(path, exts))
    {
      var cleanPath := path;
      var ext := Ext(path);
      if ext != "" {
        cleanPath := TrimSuffix(path, ext);
      }
      if !HasSuffix(cleanPath, routes[i]) {
        continue;
      }
      var excluded := AnyPrefixOf(cleanPath, excludes);
      if excluded {
        continue;
      }
      var extOk := CheckExtension(path, exts);
      if extOk {
        return true;
      }
    }
    return false;
  }

  /** `RouteIsProtectedRegex`, with the pattern engine given as `matches`. */
  method RouteIsProtectedRegex(routes: seq<string>, excludes: seq<string>, exts: seq<string>, path: string,
                               matches: (string, string) -> bool)
    returns (r: bool)
    ensures r == RegexProtected(path, routes, excludes, exts, matches)
  {
    for i := 0 to |routes|
      invariant forall k :: 0 <= k < i ==> !(matches(routes[k], path) && !SomeMatch(excludes, path, matches) && ExtensionProtected(path, exts))
    {
      if !matches(routes[i], path) {
        continue;
      }
      var excluded := AnyMatch(excludes, path, matches);
      if excluded {
        continue;
      }
      var extOk := CheckExtension(path, exts);
      if extOk {
        return true;
      }
    }
    return false;
  }

  /** `isGoodUserAgent`: the lower-cased user agent starts with one of the (already lower-case) exempt agents. */
  method IsGoodUserAgent(exemptUserAgents: seq<string>, ua: string) returns (b: bool)
    ensures b == SomePrefixOf(ToLower(ua), exemptUserAgents)
  {
    var lower := ToLower(ua);
    b := AnyPrefixOf(lower, exemptUserAgents);
  }

  /** Every entry lower-cased, as the constructor stores the exempt user agents. */
  function LowerAll(agents: seq<string>): (r: seq<string>)
    ensures |r| == |agents|
    ensures forall i :: 0 <= i < |agents| ==> r[i] == ToLower(agents[i])
  {
    seq(|agents|, i requires 0 <= i < |agents| => ToLower(agents[i]))
  }

  /**
   * With the list lower-cased at construction, the exemption ignores case on
   * both sides: two user agents that differ only in case get the same verdict,
   * and an agent is exempt exactly when it starts with a configured entry up to case.
   */
  lemma UserAgentIgnoresCase(configured: seq<string>, ua: string, other: string)
    requires ToLower(ua) == ToLower(other)
    ensures SomePrefixOf(ToLower(ua), LowerAll(configured)) == SomePrefixOf(ToLower(other), LowerAll(configured))
    ensures SomePrefixOf(ToLower(ua), LowerAll(configured)) <==>
              exists i :: 0 <= i < |configured| && HasPrefix(ToLower(ua), ToLower(configured[i]))
  {
  }

  /** A path without a dot has no extension, so it passes the extension gate whatever the extension list. */
  lemma NoDotPassesExtensionGate(path: string, exts: seq<string>)
    requires '.' !in path
    ensures ExtensionProtected(path, exts)
  {
    assert Ext(path) == [];
  }

  /** A shop whose API is excluded and whose only protected file type is HTML pages. */
  lemma ShopScenario()
    ensures PrefixProtected("/shop/cart", ["/shop"], ["/shop/api"], ["html"])
    ensures !PrefixProtected("/shop/api/cart", ["/shop"], ["/shop/api"], ["html"])
    ensures !PrefixProtected("/shop/logo.png", ["/shop"], ["/shop/api"], ["html"])
    ensures PrefixProtected("/shop/index.html", ["/shop"], ["/shop/api"], ["html"])
  {
    var routes, excludes := ["/shop"], ["/shop/api"];
    assert HasPrefix("/shop/cart", routes[0]);
    assert "/shop/cart"[6] != "/shop/api"[6];
    assert HasPrefix("/shop/api/cart", excludes[0]);
    assert HasPrefix("/shop/logo.png", routes[0]);
    assert "/shop/logo.png"[6] != "/shop/api"[6];
    ExtFromLastDot("/shop/logo.png", 10);
    assert BareExt("/shop/logo.png") == "png";
    assert ToLower("png")[0] != ToLower("html")[0];
    assert HasPrefix("/shop/index.html", routes[0]);
    assert "/shop/index.html"[6] != "/shop/api"[6];
    ExtFromLastDot("/shop/index.html", 11);
    assert BareExt("/shop/index.html") == "html";
    assert EqualFold("html", ["html"][0]);
  }
}

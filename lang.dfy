// Language resolution at start-up and the redirect of the root and
// catch-all routes (my-app/src/main.jsx).
//
// The two browser values the code reads become parameters:
//   saved            localStorage.getItem("lang"), None when the key is absent
//   browserLanguage  navigator.language
module Lang {
  import opened Text

  /** The languages the routed site supports, in the source's order. */
  const AllowedLangs: seq<string> := ["HU", "EN"]

  /** The language used when neither the stored nor the browser value is allowed. */
  const FallbackLang: string := "EN"

  /** navigator.language.slice(0, 2).toUpperCase() */
  function BrowserCode(browserLanguage: string): (r: string)
    ensures |r| == if |browserLanguage| < 2 then |browserLanguage| else 2
    ensures forall i :: 0 <= i < |r| ==> r[i] == UpperChar(browserLanguage[i])
  {
    Upper(Prefix(browserLanguage, 2))
  }

  /** localStorage.getItem("lang")?.toUpperCase(): None stays None. */
  function StoredCode(saved: Option<string>): (r: Option<string>)
    ensures r.Some? <==> saved.Some?
    ensures r.Some? ==> |r.value| == |saved.value|
    ensures r.Some? ==> forall i :: 0 <= i < |r.value| ==> !IsLowerAscii(r.value[i])
    ensures r.Some? ==> forall i :: 0 <= i < |r.value| ==> r.value[i] == UpperChar(saved.value[i])
  {
    if saved.Some? then Some(Upper(saved.value)) else None
  }

  /** A stored code is used when it is present, non-empty (truthy) and allowed. */
  predicate StoredUsable(saved: Option<string>)
    ensures StoredUsable(saved) <==> saved.Some? && Upper(saved.value) in AllowedLangs
  {
    var stored := StoredCode(saved);
    stored.Some? && stored.value != "" && stored.value in AllowedLangs
  }

  /** getDefaultLang(): stored preference, then the browser's prefix, then "EN". */
  function DefaultLang(saved: Option<string>, browserLanguage: string): (r: string)
    ensures r in AllowedLangs
  {
    if StoredUsable(saved) then StoredCode(saved).value
    else if BrowserCode(browserLanguage) in AllowedLangs then BrowserCode(browserLanguage)
    else FallbackLang
  }

  /** The stored value wins, upper-cased, whenever it names an allowed language. */
  lemma StoredPreferenceWins(stored: string, browserLanguage: string)
    requires Upper(stored) in AllowedLangs
    ensures DefaultLang(Some(stored), browserLanguage) == Upper(stored)
  {
  }

  /** The stored value is compared without regard to case. */
  lemma StoredCaseInsensitive(stored: string, browserLanguage: string)
    ensures DefaultLang(Some(stored), browserLanguage)
         == DefaultLang(Some(Upper(stored)), browserLanguage)
    ensures DefaultLang(Some("hu"), browserLanguage) == "HU"
  {
    UpperIdempotent(stored);
    assert Upper("hu") == "HU";
  }

  /** Without a usable stored value, an allowed browser prefix is used. */
  lemma BrowserFallback(saved: Option<string>, browserLanguage: string)
    requires saved.None? || Upper(saved.value) !in AllowedLangs
    requires BrowserCode(browserLanguage) in AllowedLangs
    ensures DefaultLang(saved, browserLanguage) == BrowserCode(browserLanguage)
  {
  }

  /** With neither value allowed the result is "EN". */
  lemma FixedFallback(saved: Option<string>, browserLanguage: string)
    requires saved.None? || Upper(saved.value) !in AllowedLangs
    requires BrowserCode(browserLanguage) !in AllowedLangs
    ensures DefaultLang(saved, browserLanguage) == FallbackLang
  {
  }

  /** The target of <Navigate to={`/${getDefaultLang().toLowerCase()}`}>. */
  function RedirectTarget(saved: Option<string>, browserLanguage: string): (path: string)
    ensures path == "/hu" || path == "/en"
  {
    var code := DefaultLang(saved, browserLanguage);
    assert Lower("HU") == "hu" && Lower("EN") == "en";
    "/" + Lower(code)
  }

  // The route table: "/" and the catch-all redirect, "/:lang/..." renders the page.
  datatype Route = RootRoute | LangRoute | CatchAllRoute

  datatype Element = Redirect(to: string) | RenderApp

  function RouteElement(route: Route, saved: Option<string>, browserLanguage: string): (r: Element)
    ensures r.Redirect? <==> route != LangRoute
    ensures r.Redirect? ==> r.to == "/hu" || r.to == "/en"
  {
    match route
    case RootRoute => Redirect(RedirectTarget(saved, browserLanguage))
    case LangRoute => RenderApp
    case CatchAllRoute => Redirect(RedirectTarget(saved, browserLanguage))
  }

  /**
   * The root and catch-all routes redirect to the same place, and the path
   * segment there, read back in upper case, is the resolved language.
   */
  lemma RedirectsAgree(saved: Option<string>, browserLanguage: string)
    ensures RouteElement(RootRoute, saved, browserLanguage)
         == RouteElement(CatchAllRoute, saved, browserLanguage)
    ensures (var p := RedirectTarget(saved, browserLanguage);
             |p| == 3 && p[0] == '/' && Upper(p[1..]) == DefaultLang(saved, browserLanguage))
  {
    var code := DefaultLang(saved, browserLanguage);
    UpperOfLower(code);
    var p := RedirectTarget(saved, browserLanguage);
    assert p[1..] == Lower(code);
  }
}

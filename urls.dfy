// URL helpers shared by js/content.js and js/background.js: getBaseUrl
// (the two files carry the same code) and isSameDomain. The browser's URL
// parser is not modelled: it is a parameter that either rejects a string
// (the `new URL(...)` constructor throws) or returns its normalised href
// and its hostname.

module Urls {
  import opened Common

  /** What `new URL(s)` exposes to the source: `.href` and `.hostname`. */
  datatype ParsedUrl = ParsedUrl(href: string, hostname: string)

  /** The browser's URL parser; None when the constructor throws. */
  type UrlParser = string -> Option<ParsedUrl>

  /**
   * The body of getBaseUrl once the URL has parsed: cut the href at its
   * first '?', or, when there is none, at its first '#'.
   */
  function StripQueryAndFragment(href: string): (r: string)
    ensures r <= href
    ensures '?' !in r
    ensures '?' in href ==> |r| < |href| && href[|r|] == '?'
    ensures '?' !in href ==> '#' !in r
    ensures '?' !in href && '#' in href ==> |r| < |href| && href[|r|] == '#'
    ensures '?' !in href && '#' !in href ==> r == href
  {
    var queryPos := IndexOfChar(href, '?');
    if queryPos != -1 then href[..queryPos]
    else
      var hashPos := IndexOfChar(href, '#');
      if hashPos != -1 then href[..hashPos] else href
  }

  /**
   * getBaseUrl: the parsed href without query and fragment; the input
   * itself when the parser rejects it.
   */
  function GetBaseUrl(parse: UrlParser, url: string): (r: string)
    ensures parse(url).None? ==> r == url
    ensures parse(url).Some? ==> r <= parse(url).value.href && '?' !in r
    ensures parse(url).Some? && '?' !in parse(url).value.href && '#' !in parse(url).value.href ==>
              r == parse(url).value.href
  {
    match parse(url)
    case None => url
    case Some(parsed) => StripQueryAndFragment(parsed.href)
  }

  /** JavaScript truthiness of a string that may be null. */
  predicate Truthy(s: Option<string>)
  {
    s.Some? && s.value != ""
  }

  /**
   * isSameDomain: both URLs present and non-empty, both parse, and their
   * hostnames agree; false on every failure.
   */
  function IsSameDomain(parse: UrlParser, url1: Option<string>, url2: Option<string>): (r: bool)
    ensures r <==> Truthy(url1) && Truthy(url2) && parse(url1.value).Some? && parse(url2.value).Some? &&
                   parse(url1.value).value.hostname == parse(url2.value).value.hostname
  {
    if !Truthy(url1) || !Truthy(url2) then false
    else
      match (parse(url1.value), parse(url2.value))
      case (Some(p1), Some(p2)) => p1.hostname == p2.hostname
      case _ => false
  }

  /** Same-domain is symmetric and transitive (a partial equivalence). */
  lemma SameDomainIsPartialEquivalence(parse: UrlParser, a: Option<string>, b: Option<string>, c: Option<string>)
    ensures IsSameDomain(parse, a, b) ==> IsSameDomain(parse, b, a)
    ensures IsSameDomain(parse, a, b) && IsSameDomain(parse, b, c) ==> IsSameDomain(parse, a, c)
  {
  }

  /** A URL is on its own domain exactly when it is present, non-empty and parses. */
  lemma SameDomainReflexiveOnParsable(parse: UrlParser, a: Option<string>)
    ensures IsSameDomain(parse, a, a) <==> Truthy(a) && parse(a.value).Some?
  {
  }

  /**
   * The fragment stays in the base URL when a '?' follows the '#':
   * "p#f?q" becomes "p#f", and stripping again gives "p", so base URLs are
   * not a fixed point of the stripping.
   */
  lemma QueryInsideFragmentKeepsFragment()
    ensures StripQueryAndFragment("p#f?q") == "p#f"
    ensures StripQueryAndFragment("p#f") == "p"
  {
    assert IndexOfChar("p#f?q", '?') == 3;
    assert IndexOfChar("p#f", '#') == 1;
  }
}

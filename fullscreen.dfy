/**
 * Cross-browser fullscreen: which of the standard, WebKit-prefixed and
 * MS-prefixed entry points is used, and what the page can observe of the
 * browser's fullscreen state. The browser itself is outside the model: its
 * state is an input, and the page's calls into it are recorded requests.
 */
module Fullscreen {
  import opened Wrappers

  /** The three families of fullscreen entry points, in the order they are tried. */
  datatype Api = Standard | Webkit | Ms

  /** Position of an API in the fallback order. */
  function Rank(a: Api): nat {
    match a
    case Standard => 0
    case Webkit => 1
    case Ms => 2
  }

  /**
   * Which variants of one entry point an object offers: for an element,
   * requestFullscreen / webkitRequestFullscreen / msRequestFullscreen; for the
   * document, exitFullscreen / webkitExitFullscreen / msExitFullscreen.
   */
  datatype Methods = Methods(standard: bool, webkit: bool, ms: bool)

  predicate Has(m: Methods, a: Api) {
    match a
    case Standard => m.standard
    case Webkit => m.webkit
    case Ms => m.ms
  }

  /** The variant the fallback chain calls: the first one available, or none at all. */
  function Preferred(m: Methods): (r: Option<Api>)
    ensures r == None <==> forall a: Api :: !Has(m, a)
    ensures r.Some? ==> Has(m, r.value)
    ensures r.Some? ==> forall a: Api :: Has(m, a) ==> Rank(r.value) <= Rank(a)
  {
    if m.standard then assert Has(m, Standard); Some(Standard)
    else if m.webkit then assert Has(m, Webkit); Some(Webkit)
    else if m.ms then assert Has(m, Ms); Some(Ms)
    else None
  }

  /** A call the page made into the browser's fullscreen API. */
  datatype Request = Enter(api: Api) | Exit(api: Api)

  /** The calls one run of `openFullscreen` makes on an element offering `m`: at most one. */
  function EnterRequest(m: Methods): (r: seq<Request>)
    ensures |r| <= 1
    ensures r == [] <==> Preferred(m) == None
    ensures r != [] ==> r[0] == Enter(Preferred(m).value)
  {
    match Preferred(m)
    case None => []
    case Some(a) => [Enter(a)]
  }

  /** The calls one run of `closeFullscreen` makes on a document offering `m`: at most one. */
  function ExitRequest(m: Methods): (r: seq<Request>)
    ensures |r| <= 1
    ensures r == [] <==> Preferred(m) == None
    ensures r != [] ==> r[0] == Exit(Preferred(m).value)
  {
    match Preferred(m)
    case None => []
    case Some(a) => [Exit(a)]
  }

  /**
   * What the page reads from the browser when a handler runs: the three
   * fullscreen-element properties (each either set or unset), the exit methods
   * the document offers and the request methods the video player offers.
   */
  datatype Document = Document(
    fullscreenElement: bool,
    webkitFullscreenElement: bool,
    msFullscreenElement: bool,
    exitMethods: Methods,
    playerMethods: Methods)

  /** The three-way fullscreen check used by the close button and by the button-visibility rule. */
  predicate IsFullscreen(d: Document)
    ensures d.fullscreenElement ==> IsFullscreen(d)
    ensures IsFullscreen(d) <==> d.fullscreenElement || d.webkitFullscreenElement || d.msFullscreenElement
  {
    d.fullscreenElement || d.webkitFullscreenElement || d.msFullscreenElement
  }
}

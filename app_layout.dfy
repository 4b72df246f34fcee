/** The root layout: the login and signup pages are shown bare, every other
    page between the header and the footer. */
module AppLayout {

  const AuthRoutes: seq<string> := ["/login", "/signup"]

  datatype Part = Header | Main(outlet: bool) | Footer

  /** Only the outlet, or the header, the outlet inside `main`, and the footer. */
  datatype Layout = OutletOnly | Chrome(parts: seq<Part>)

  /** `authRoutes.includes(location.pathname)`: exact membership, no normalisation. */
  function LayoutFor(pathname: string): Layout {
    if pathname in AuthRoutes then OutletOnly else Chrome([Header, Main(true), Footer])
  }

  /** The two auth pages are bare; every other path gets the header, the main outlet and the footer, in that order. */
  lemma LayoutRule(pathname: string)
    ensures LayoutFor(pathname).OutletOnly? <==> pathname == "/login" || pathname == "/signup"
    ensures !LayoutFor(pathname).OutletOnly? ==> LayoutFor(pathname).parts == [Header, Main(true), Footer]
  {
  }

  /** A trailing slash or a different letter case is a different pathname, so those pages get the chrome.
      (A query string is not part of the pathname, so `/login?x` is laid out as `/login`.) */
  lemma NearMissesGetChrome()
    ensures LayoutFor("/login/").Chrome?
    ensures LayoutFor("/Signup").Chrome?
    ensures LayoutFor("/").Chrome?
  {
    assert "/login/" != "/login" && "/login/" != "/signup";
    assert "/Signup"[1] != "/signup"[1];
  }
}

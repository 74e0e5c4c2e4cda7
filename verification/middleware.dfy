/**
 The route guard that runs before pages are served.  `config.matcher` runs
 it only on "/", "/upload" and "/upload/..." (any path below "/upload/"); on
 those paths a request without a session token is sent to "/login" with the
 rest of its URL kept.  `isProtectedRoute` is wider than the matcher: it
 also accepts "/uploadx", "/uploads" and "/upload-x", but the guard never
 runs there, so those paths are served without a token.  Whether `getToken`
 finds a token is a parameter.
 */
module Middleware {
  import opened Seqs

  /** The parts of `req.nextUrl` the guard reads or keeps. */
  datatype Url = Url(origin: string, pathname: string, search: string)

  /** `NextResponse.next()` or `NextResponse.redirect(location)`. */
  datatype Response = Next | Redirect(location: Url)

  const LoginPath: string := "/login"
  const UploadPrefix: string := "/upload"

  /** `isProtectedRoute`: the root, or any path that starts with "/upload",
      "/uploads" and "/upload-x" included. */
  predicate IsProtectedRoute(pathname: string): (b: bool)
    ensures b ==> 0 < |pathname| && pathname[0] == '/'
    ensures pathname == "/" ==> b
  {
    pathname == "/" || IsPrefix(UploadPrefix, pathname)
  }

  /** The guard's decision for a request to `url`. */
  function Guard(url: Url, hasToken: bool): (r: Response)
    ensures r.Redirect? <==> IsProtectedRoute(url.pathname) && !hasToken
    ensures r.Redirect? ==> r.location.pathname == LoginPath
    ensures r.Redirect? ==> r.location.origin == url.origin && r.location.search == url.search
  {
    if IsProtectedRoute(url.pathname) && !hasToken then Redirect(url.(pathname := LoginPath))
    else Next
  }

  /** `config.matcher`: "/" and "/upload/:path*", that is "/upload" itself
      and every path below "/upload/". */
  predicate MatcherApplies(pathname: string): (b: bool)
    ensures b ==> 0 < |pathname| && pathname[0] == '/'
    ensures pathname == "/" || pathname == UploadPrefix ==> b
  {
    pathname == "/" || pathname == UploadPrefix || IsPrefix(UploadPrefix + "/", pathname)
  }

  /** What a request receives: the guard runs only on matched paths. */
  function Serve(url: Url, hasToken: bool): (r: Response)
    ensures !MatcherApplies(url.pathname) ==> r == Next
  {
    if MatcherApplies(url.pathname) then Guard(url, hasToken) else Next
  }

  lemma RootProtected()
    ensures IsProtectedRoute("/")
    ensures MatcherApplies("/")
  {
  }

  /** `isProtectedRoute` is a plain prefix test: anything after "/upload" is
      protected, with or without a separating slash. */
  lemma UploadPrefixProtected(rest: string)
    ensures IsProtectedRoute(UploadPrefix + rest)
  {
    assert (UploadPrefix + rest)[..|UploadPrefix|] == UploadPrefix;
  }

  lemma UploadxProtected()
    ensures IsProtectedRoute("/uploadx")
  {
    UploadPrefixProtected("x");
    assert UploadPrefix + "x" == "/uploadx";
  }

  /** A protected path is the root or starts with "/upload". */
  lemma ProtectedShape(pathname: string)
    requires IsProtectedRoute(pathname)
    ensures pathname == "/" || exists rest :: pathname == UploadPrefix + rest
  {
    if pathname != "/" {
      var rest := pathname[|UploadPrefix|..];
      assert pathname == UploadPrefix + rest;
    }
  }

  lemma LoginNotProtected()
    ensures !IsProtectedRoute(LoginPath)
  {
    assert LoginPath[1] != UploadPrefix[1];
  }

  /** Without a token, a protected path is redirected to the login page. */
  lemma MissingTokenRedirects(url: Url)
    requires IsProtectedRoute(url.pathname)
    ensures Guard(url, false) == Redirect(Url(url.origin, LoginPath, url.search))
  {
  }

  /** With a token every path passes, and an unprotected path passes with or
      without one. */
  lemma PassThrough(url: Url, hasToken: bool)
    requires hasToken || !IsProtectedRoute(url.pathname)
    ensures Guard(url, hasToken) == Next
  {
  }

  /** Following a redirect never redirects again: the login page itself is
      not guarded. */
  lemma NoRedirectLoop(url: Url, hasToken: bool)
    requires Guard(url, hasToken).Redirect?
    ensures Guard(Guard(url, hasToken).location, hasToken) == Next
  {
    LoginNotProtected();
  }

  /** Every path the matcher sends to the guard is protected, so on matched
      paths the guard redirects exactly the requests without a token. */
  lemma MatchedPathsProtected(pathname: string)
    requires MatcherApplies(pathname)
    ensures IsProtectedRoute(pathname)
  {
    if pathname != "/" && pathname != UploadPrefix {
      assert pathname[..|UploadPrefix|] == (UploadPrefix + "/")[..|UploadPrefix|];
    }
  }

  lemma ServeRedirectIff(url: Url, hasToken: bool)
    ensures Serve(url, hasToken).Redirect? <==> MatcherApplies(url.pathname) && !hasToken
  {
    if MatcherApplies(url.pathname) {
      MatchedPathsProtected(url.pathname);
    }
  }

  /** "/uploadx" is protected by the guard but never reaches it: the
      matcher only covers "/upload" and the paths below "/upload/". */
  lemma UploadxUnguarded(origin: string, search: string)
    ensures IsProtectedRoute("/uploadx")
    ensures !MatcherApplies("/uploadx")
    ensures Serve(Url(origin, "/uploadx", search), false) == Next
  {
    UploadxProtected();
    assert "/uploadx"[7] != (UploadPrefix + "/")[7];
  }
}

/**
  The sign-in callback (frontend/app/auth/callback/route.ts): exchange the
  one-time `code` for a session and redirect to the `next` path, if that
  path is safe, or back home with an error.

  The session exchange is the parameter `exchange`: whether the auth
  service accepts the code.
  */
module AuthCallback {
  import opened JsString

  /** `searchParams.get('next') ?? '/'` */
  function NextParam(query: map<string, string>): (r: string)
    ensures "next" in query ==> r == query["next"]
    ensures "next" !in query ==> r == "/"
  {
    if "next" in query then query["next"] else "/"
  }

  /** `isValidRedirect`: a path on this origin, not a protocol-relative URL. */
  predicate IsValidRedirect(next: string)
    ensures IsValidRedirect(next) <==> |next| >= 1 && next[0] == '/' && (|next| == 1 || next[1] != '/')
  {
    StartsWith(next, "/") && !StartsWith(next, "//")
  }

  /** `safePath` */
  function SafePath(next: string): (r: string)
    ensures StartsWith(r, "/") && !StartsWith(r, "//")
    ensures r == next <==> IsValidRedirect(next)
    ensures !IsValidRedirect(next) ==> r == "/"
  {
    if IsValidRedirect(next) then next else "/"
  }

  /** Sanitising a sanitised path changes nothing. */
  lemma SafePathIdempotent(next: string)
    ensures SafePath(SafePath(next)) == SafePath(next)
  {
    var p := SafePath(next);
    assert IsValidRedirect(p);
  }

  const AuthErrorPath: string := "/?error=auth_error"

  /** The location `GET` redirects to. */
  function Redirect(origin: string, query: map<string, string>, exchange: string -> bool): (r: string)
    ensures "code" in query && query["code"] != "" && exchange(query["code"]) ==>
      r == origin + SafePath(NextParam(query))
    ensures !("code" in query && query["code"] != "" && exchange(query["code"])) ==>
      r == origin + AuthErrorPath
  {
    if "code" in query && query["code"] != "" && exchange(query["code"]) then origin + SafePath(NextParam(query))
    else origin + AuthErrorPath
  }

  /** Whatever the query holds, the redirect stays on `origin`: the location
      is `origin` followed by a path that starts with one slash only. */
  lemma RedirectStaysOnOrigin(origin: string, query: map<string, string>, exchange: string -> bool)
    ensures var r := Redirect(origin, query, exchange);
      StartsWith(r, origin + "/") && !StartsWith(r, origin + "//")
  {
    var r := Redirect(origin, query, exchange);
    var path := r[|origin|..];
    assert r == origin + path;
    assert StartsWith(path, "/") && !StartsWith(path, "//") by {
      if path != AuthErrorPath {
        assert path == SafePath(NextParam(query));
      } else {
        assert path[1] == '?';
      }
    }
    assert r[..|origin| + 1] == origin + path[..1];
    if |r| >= |origin| + 2 {
      assert r[..|origin| + 2] == origin + path[..2];
    }
  }

  /** A signed-in user with a safe `next` lands exactly there; without a
      `next`, on the home page. */
  lemma RedirectHonoursSafeNext(origin: string, query: map<string, string>, exchange: string -> bool)
    requires "code" in query && query["code"] != "" && exchange(query["code"])
    ensures "next" in query && IsValidRedirect(query["next"]) ==> Redirect(origin, query, exchange) == origin + query["next"]
    ensures "next" !in query ==> Redirect(origin, query, exchange) == origin + "/"
  {
    assert IsValidRedirect("/");
  }
}

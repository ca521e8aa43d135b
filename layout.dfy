/**
  * The path-driven decisions of the navigation bar (src/components/Layout/NavBar.tsx):
  * where the logo and the profile link lead, whether the current page is an
  * authentication page, and which buttons the right-hand side shows.
  *
  * Everything here is a function of the current pathname and of whether a user
  * is signed in. The two regular expressions of the source are replaced by an
  * explicit slug extraction: `^/tenant/([^/]+)` captures the greedy run of
  * non-`/` characters after `/tenant/`, and `^/tenant/[^/]+/auth$` matches a
  * whole path.
  */
module Layout {
  import opened Wrappers
  import opened Text

  const TenantPrefix := "/tenant/"

  /** The run of characters before the first `/` (what `[^/]*` matches greedily). */
  function Segment(s: string): string {
    if s == [] || s[0] == '/' then [] else [s[0]] + Segment(s[1..])
  }

  /** `Segment` takes a slash-free prefix and stops only at a `/` or at the end. */
  lemma {:induction false} SegmentSpec(s: string)
    ensures IsPrefix(Segment(s), s) && '/' !in Segment(s)
    ensures |Segment(s)| == |s| || s[|Segment(s)|] == '/'
  {
    if s != [] && s[0] != '/' {
      SegmentSpec(s[1..]);
    }
  }

  /** A slash-free string followed by nothing or by a `/` is exactly the segment. */
  lemma {:induction false} SegmentOfSlugThenSlash(slug: string, rest: string)
    requires '/' !in slug && (rest == [] || rest[0] == '/')
    ensures Segment(slug + rest) == slug
  {
    if slug == [] {
      assert slug + rest == rest;
    } else {
      assert (slug + rest)[1..] == slug[1..] + rest;
      SegmentOfSlugThenSlash(slug[1..], rest);
    }
  }

  /** A tenant slug as the source's patterns accept it: non-empty and slash-free. */
  predicate IsSlug(slug: string) {
    slug != "" && '/' !in slug
  }

  /** `path` starts with `/tenant/` followed by `slug` (not necessarily all of the next segment). */
  predicate StartsWithTenant(path: string, slug: string) {
    IsSlug(slug) && IsPrefix(TenantPrefix + slug, path)
  }

  /** `slug` is what `^/tenant/([^/]+)` captures from `path`: the whole next segment. */
  predicate TenantCapture(path: string, slug: string) {
    StartsWithTenant(path, slug) &&
    (|path| == |TenantPrefix + slug| || path[|TenantPrefix + slug|] == '/')
  }

  /** `location.pathname.match(/^\/tenant\/([^/]+)/)`, giving the captured slug if it matches. */
  function TenantSlug(path: string): Option<string> {
    if IsPrefix(TenantPrefix, path) then
      var seg := Segment(path[|TenantPrefix|..]);
      if seg == "" then None else Some(seg)
    else None
  }

  /**
    * The tenant pattern matches exactly when the path starts with `/tenant/` and a
    * slug, and then it captures the maximal slug; the capture is unique.
    */
  lemma TenantSlugSpec(path: string)
    ensures TenantSlug(path).Some? <==> exists slug :: StartsWithTenant(path, slug)
    ensures forall slug :: TenantSlug(path) == Some(slug) <==> TenantCapture(path, slug)
  {
    var n := |TenantPrefix|;
    if IsPrefix(TenantPrefix, path) {
      var rest := path[n..];
      SegmentSpec(rest);
      var seg := Segment(rest);
      assert path == TenantPrefix + rest;
      if seg != "" {
        assert (TenantPrefix + seg) == path[..n + |seg|];
        assert TenantCapture(path, seg);
      }
      forall slug | TenantCapture(path, slug) ensures TenantSlug(path) == Some(slug) {
        var k := |TenantPrefix + slug|;
        assert path[..k] == TenantPrefix + slug;
        assert rest[..|slug|] == path[..k][n..];
        assert slug == rest[..|slug|];
        assert rest == slug + rest[|slug|..];
        SegmentOfSlugThenSlash(slug, rest[|slug|..]);
      }
    }
  }

  /** Building a tenant path from a slug and a tail that starts a new segment gives that slug back. */
  lemma TenantSlugOfTenantPath(slug: string, tail: string)
    requires IsSlug(slug) && (tail == [] || tail[0] == '/')
    ensures TenantSlug(TenantPrefix + slug + tail) == Some(slug)
  {
    var path := TenantPrefix + slug + tail;
    assert path[..|TenantPrefix|] == TenantPrefix;
    assert path[|TenantPrefix|..] == slug + tail;
    SegmentOfSlugThenSlash(slug, tail);
  }

  /** `getLogoDestination`: the tenant home on tenant paths, the dashboard from `/profile`, else `/`. */
  function LogoDestination(path: string): string {
    match TenantSlug(path)
    case Some(slug) => TenantPrefix + slug
    case None => if path == "/profile" then "/dashboard" else "/"
  }

  /** `getProfileDestination`: the tenant's profile page on tenant paths, else `/profile`. */
  function ProfileDestination(path: string): string {
    match TenantSlug(path)
    case Some(slug) => TenantPrefix + slug + "/profile"
    case None => "/profile"
  }

  /** On a tenant path, the logo leads to `/tenant/` and the whole captured slug, and the profile link below it. */
  lemma TenantDestinations(path: string, slug: string)
    requires TenantCapture(path, slug)
    ensures LogoDestination(path) == TenantPrefix + slug
    ensures ProfileDestination(path) == TenantPrefix + slug + "/profile"
  {
    TenantSlugSpec(path);
  }

  /**
    * Off tenant paths (including `/tenant/` with an empty slug), the logo leads to
    * `/dashboard` exactly from `/profile` and to `/` from everywhere else, and the
    * profile link is `/profile`.
    */
  lemma NonTenantDestinations(path: string)
    requires forall slug :: !StartsWithTenant(path, slug)
    ensures LogoDestination(path) == (if path == "/profile" then "/dashboard" else "/")
    ensures ProfileDestination(path) == "/profile"
  {
    TenantSlugSpec(path);
  }

  /** The tenant check comes first: `/tenant/x/profile`-like paths never lead to the dashboard. */
  lemma LogoDestinationShape(path: string)
    ensures var d := LogoDestination(path);
      d == "/" || d == "/dashboard" ||
      (IsPrefix(TenantPrefix, d) && IsPrefix(d, path) && |d| > |TenantPrefix|)
    ensures LogoDestination(path) == "/dashboard" <==> path == "/profile"
  {
    var n := |TenantPrefix|;
    if IsPrefix(TenantPrefix, path) {
      assert path == TenantPrefix + path[n..];
      SegmentSpec(path[n..]);
      var seg := Segment(path[n..]);
      assert path[..n + |seg|] == TenantPrefix + seg;
      if seg != "" {
        assert LogoDestination(path) == TenantPrefix + seg;
        assert IsPrefix(TenantPrefix, TenantPrefix + seg);
      }
    }
  }

  /** Whenever the tenant pattern matches, the profile link is the logo link followed by `/profile`. */
  lemma ProfileExtendsLogo(path: string)
    requires exists slug :: StartsWithTenant(path, slug)
    ensures ProfileDestination(path) == LogoDestination(path) + "/profile"
  {
    TenantSlugSpec(path);
  }

  /** The path `/tenant/<slug>/auth`. */
  function TenantAuthPath(slug: string): string {
    TenantPrefix + slug + "/auth"
  }

  /** `isOnAuthPage`: `/auth`, or a whole-path match of `^/tenant/[^/]+/auth$`. */
  predicate IsOnAuthPage(path: string) {
    if path == "/auth" then true
    else if IsPrefix(TenantPrefix, path) then
      var rest := path[|TenantPrefix|..];
      var seg := Segment(rest);
      seg != "" && rest == seg + "/auth"
    else false
  }

  /** The page is an auth page exactly for `/auth` and `/tenant/<slug>/auth` with a slug and nothing after. */
  lemma IsOnAuthPageIff(path: string)
    ensures IsOnAuthPage(path) <==> path == "/auth" || exists slug :: IsSlug(slug) && path == TenantAuthPath(slug)
  {
    var n := |TenantPrefix|;
    if path != "/auth" && IsPrefix(TenantPrefix, path) {
      var rest := path[n..];
      assert path == TenantPrefix + rest;
      SegmentSpec(rest);
      var seg := Segment(rest);
      if seg != "" && rest == seg + "/auth" {
        assert path == TenantAuthPath(seg);
      }
      forall slug | IsSlug(slug) && path == TenantAuthPath(slug) ensures IsOnAuthPage(path) {
        assert rest == slug + "/auth";
        SegmentOfSlugThenSlash(slug, "/auth");
      }
    }
  }

  /** Trailing segments defeat the whole-path match. */
  lemma AuthPageExamples()
    ensures IsOnAuthPage("/auth") && IsOnAuthPage("/tenant/acme/auth")
    ensures !IsOnAuthPage("/auth/x") && !IsOnAuthPage("/tenant/a/auth/x") && !IsOnAuthPage("/tenant//auth")
  {
    assert "/tenant/acme/auth" == TenantAuthPath("acme");
    IsOnAuthPageIff("/tenant/acme/auth");
    var p := "/tenant/a/auth/x";
    assert p[..|TenantPrefix|] == TenantPrefix;
    assert p[|TenantPrefix|..] == "a" + "/auth/x";
    SegmentOfSlugThenSlash("a", "/auth/x");
    var q := "/tenant//auth";
    assert q[..|TenantPrefix|] == TenantPrefix;
    assert q[|TenantPrefix|..] == "/auth";
  }

  /**
    * The login link: `/auth`, with `?redirect=` and the encoded current path
    * unless the path is `/` or starts with `/auth`. `encode` stands for
    * `encodeURIComponent`.
    */
  function LoginLink(path: string, encode: string -> string): string {
    "/auth" + if path != "/" && !IsPrefix("/auth", path) then "?redirect=" + encode(path) else ""
  }

  const SignupLink := "/auth?tab=signup"

  /** The login link always targets `/auth`, and carries a redirect exactly when the path is neither `/` nor under `/auth`. */
  lemma LoginLinkRedirect(path: string, encode: string -> string)
    ensures IsPrefix("/auth", LoginLink(path, encode))
    ensures LoginLink(path, encode) != "/auth" <==> path != "/" && !IsPrefix("/auth", path)
    ensures LoginLink(path, encode) != "/auth" ==> LoginLink(path, encode) == "/auth?redirect=" + encode(path)
  {
  }

  /** What the right-hand side of the bar shows. */
  datatype NavItems =
    | UserMenu(dashboard: string, profile: string)
    | AuthButtons(login: string, signup: string)
    | NoButtons

  /** The `user ? … : !isOnAuthPage() && …` choice, with the links each branch renders. */
  function RightNav(hasUser: bool, path: string, encode: string -> string): NavItems {
    if hasUser then UserMenu("/dashboard", ProfileDestination(path))
    else if !IsOnAuthPage(path) then AuthButtons(LoginLink(path, encode), SignupLink)
    else NoButtons
  }

  /**
    * The login and sign-up buttons show exactly when nobody is signed in and the
    * page is neither `/auth` nor a tenant auth page; the sign-up link never
    * depends on the path.
    */
  lemma AuthButtonsVisibility(hasUser: bool, path: string, encode: string -> string)
    ensures RightNav(hasUser, path, encode).AuthButtons? <==>
      !hasUser && path != "/auth" && !(exists slug :: IsSlug(slug) && path == TenantAuthPath(slug))
    ensures RightNav(hasUser, path, encode).UserMenu? <==> hasUser
    ensures RightNav(hasUser, path, encode).AuthButtons? ==>
      RightNav(hasUser, path, encode).signup == "/auth?tab=signup"
  {
    IsOnAuthPageIff(path);
  }

  /** Logo destinations for a tenant page, the profile page and any other page. */
  lemma LogoExamples()
    ensures LogoDestination("/tenant/acme/dashboard") == "/tenant/acme"
    ensures LogoDestination("/profile") == "/dashboard"
    ensures LogoDestination("/settings") == "/"
  {
    assert "/tenant/acme/dashboard" == TenantPrefix + "acme" + "/dashboard";
    TenantSlugOfTenantPath("acme", "/dashboard");
    assert "/settings"[..|TenantPrefix|][1] != TenantPrefix[1];
  }

  /** Profile destinations on and off tenant pages. */
  lemma ProfileExamples()
    ensures ProfileDestination("/tenant/acme/members") == "/tenant/acme/profile"
    ensures ProfileDestination("/anything") == "/profile"
  {
    assert "/tenant/acme/members" == TenantPrefix + "acme" + "/members";
    TenantSlugOfTenantPath("acme", "/members");
    assert "/anything"[..|TenantPrefix|][1] != TenantPrefix[1];
  }

  /** Which buttons show on auth pages and elsewhere, signed in or not. */
  lemma RightNavExamples(encode: string -> string)
    ensures RightNav(false, "/auth", encode) == NoButtons
    ensures RightNav(false, "/tenant/acme/auth", encode) == NoButtons
    ensures RightNav(false, "/dashboard", encode).AuthButtons?
    ensures RightNav(true, "/dashboard", encode).UserMenu?
  {
    AuthPageExamples();
    assert "/dashboard"[..|TenantPrefix|][1] != TenantPrefix[1];
  }

  /** No redirect from the root page; the encoded path otherwise. */
  lemma LoginLinkExamples(encode: string -> string)
    requires encode("/billing") == "%2Fbilling"
    ensures LoginLink("/", encode) == "/auth"
    ensures LoginLink("/billing", encode) == "/auth?redirect=%2Fbilling"
  {
    assert "/billing"[..|"/auth"|][1] != "/auth"[1];
  }
}

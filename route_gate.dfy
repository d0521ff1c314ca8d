/** The request middleware: protected routes need a signed-in user, and a
    signed-in user without a username is sent to choose one first. The two
    backend lookups (the current user, the user's profile) are inputs. */
module RouteGate {
  import opened Collections

  datatype Decision = RedirectToLogin | RedirectToChooseUsername | Continue

  const LoginPath: string := "/auth/login"
  const ChooseUsernamePath: string := "/profile/choose-username"

  /** Paths that require a signed-in user. */
  const ProtectedPrefixes: seq<string> := ["/rate", "/profile"]

  /** Paths a user without a username may still visit. */
  const UsernameGateAllow: seq<string> := [
    "/profile/choose-username", "/auth", "/api",
    "/favicon", "/assets", "/public", "/_image",
    "/sitemap", "/robots"]

  /** `s.startsWith(p)`. */
  predicate StartsWith(s: string, p: string) {
    |p| <= |s| && s[..|p|] == p
  }

  /** `path === p || path.startsWith(p + '/')`. */
  predicate Matches(path: string, p: string) {
    path == p || StartsWith(path, p + "/")
  }

  /** `prefixes.some(p => Matches(path, p))`. */
  predicate MatchesAny(path: string, prefixes: seq<string>) {
    Any(prefixes, p => Matches(path, p))
  }

  /** `onRequest` with the user lookup as `loggedIn` and the profile lookup
      as `hasUsername` (a profile whose username is present and non-empty). */
  function Route(path: string, loggedIn: bool, hasUsername: bool): (d: Decision)
    ensures d == RedirectToLogin <==>
      !loggedIn && exists i :: 0 <= i < |ProtectedPrefixes| && Matches(path, ProtectedPrefixes[i])
    ensures d == RedirectToChooseUsername <==>
      loggedIn && !hasUsername && !StartsWith(path, ChooseUsernamePath)
      && forall i :: 0 <= i < |UsernameGateAllow| ==> !Matches(path, UsernameGateAllow[i])
  {
    MatchesAnyIff(path, ProtectedPrefixes);
    MatchesAnyIff(path, UsernameGateAllow);
    if MatchesAny(path, ProtectedPrefixes) && !loggedIn then RedirectToLogin
    else if loggedIn && !hasUsername && !MatchesAny(path, UsernameGateAllow) && !StartsWith(path, ChooseUsernamePath)
    then RedirectToChooseUsername
    else Continue
  }

  /** Where each redirect leads. */
  function Target(d: Decision): string
    requires d != Continue
  {
    if d == RedirectToLogin then LoginPath else ChooseUsernamePath
  }

  /** The match is segment-aware: the path either is the prefix or continues
      it with a '/'. */
  lemma MatchesSegment(path: string, p: string)
    ensures Matches(path, p) <==> StartsWith(path, p) && (|path| == |p| || path[|p|] == '/')
  {
    if StartsWith(path, p) && |path| > |p| && path[|p|] == '/' {
      assert path[..|p| + 1] == path[..|p|] + [path[|p|]];
    }
    if StartsWith(path, p + "/") {
      assert path[..|p|] == (p + "/")[..|p|];
      assert path[|p|] == (p + "/")[|p|];
    }
  }

  lemma SegmentExamples()
    ensures Matches("/rate", "/rate")
    ensures Matches("/rate/x", "/rate")
    ensures !Matches("/rates", "/rate")
  {
    assert "/rate/x"[..6] == "/rate/";
    MatchesSegment("/rates", "/rate");
  }

  /** `MatchesAny` holds iff one listed prefix matches. */
  lemma MatchesAnyIff(path: string, prefixes: seq<string>)
    ensures MatchesAny(path, prefixes) <==> exists i :: 0 <= i < |prefixes| && Matches(path, prefixes[i])
  {
    AnyIff(prefixes, p => Matches(path, p));
  }

  /** A protected path without a signed-in user goes to the login page. */
  lemma ProtectedNeedsLogin(path: string, hasUsername: bool)
    requires MatchesAny(path, ProtectedPrefixes)
    ensures Route(path, false, hasUsername) == RedirectToLogin
  {
  }

  /** A visitor who is not signed in never meets the username gate, on any
      path; they continue unless the path is protected. */
  lemma AnonymousNeverGated(path: string, hasUsername: bool)
    ensures Route(path, false, hasUsername) != RedirectToChooseUsername
    ensures Route(path, false, hasUsername) == Continue <==> !MatchesAny(path, ProtectedPrefixes)
  {
  }

  /** A signed-in user is sent to choose a username iff they have none, the
      path matches no allowed prefix and is not the choosing page itself;
      everyone else continues. */
  lemma UsernameGate(path: string, hasUsername: bool)
    ensures Route(path, true, hasUsername) == RedirectToChooseUsername
            <==> !hasUsername && !MatchesAny(path, UsernameGateAllow) && !StartsWith(path, ChooseUsernamePath)
    ensures Route(path, true, hasUsername) != RedirectToLogin
    ensures hasUsername ==> Route(path, true, hasUsername) == Continue
  {
  }

  /** No redirect loop: the choosing page and everything under its name is
      never sent back to it. */
  lemma NoChooseUsernameLoop(path: string, loggedIn: bool, hasUsername: bool)
    requires StartsWith(path, ChooseUsernamePath)
    ensures Route(path, loggedIn, hasUsername) != RedirectToChooseUsername
  {
  }

  /** API and authentication routes are never held back by the username gate. */
  lemma ApiAndAuthNotGated(path: string, loggedIn: bool, hasUsername: bool)
    requires Matches(path, "/api") || Matches(path, "/auth")
    ensures Route(path, loggedIn, hasUsername) != RedirectToChooseUsername
  {
    MatchesAnyIff(path, UsernameGateAllow);
    if Matches(path, "/api") {
      assert Matches(path, UsernameGateAllow[2]);
    } else {
      assert Matches(path, UsernameGateAllow[1]);
    }
  }

  /** Following a redirect with the same session does not redirect again. */
  lemma RedirectTargetsContinue(path: string, loggedIn: bool, hasUsername: bool)
    requires Route(path, loggedIn, hasUsername) != Continue
    ensures Route(Target(Route(path, loggedIn, hasUsername)), loggedIn, hasUsername) == Continue
  {
    var d := Route(path, loggedIn, hasUsername);
    if d == RedirectToLogin {
      MatchesAnyIff(LoginPath, ProtectedPrefixes);
      MatchesSegment(LoginPath, ProtectedPrefixes[0]);
      MatchesSegment(LoginPath, ProtectedPrefixes[1]);
      assert !StartsWith(LoginPath, ProtectedPrefixes[0]) by {
        assert LoginPath[..5] != ProtectedPrefixes[0] by { assert LoginPath[1] != ProtectedPrefixes[0][1]; }
      }
      assert !StartsWith(LoginPath, ProtectedPrefixes[1]) by {
        assert LoginPath[..8] != ProtectedPrefixes[1] by { assert LoginPath[1] != ProtectedPrefixes[1][1]; }
      }
    } else {
      assert StartsWith(ChooseUsernamePath, ChooseUsernamePath);
    }
  }
}

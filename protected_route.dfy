/** `ProtectedRoute.tsx`: the guard around signed-in pages. What it shows
    depends only on `mounted` (set by an effect after the first render),
    the auth context's `loading` and whether there is a user; when auth
    has settled with no user it also pushes the sign-in URL. */
module ProtectedRoute {
  import opened Wrappers

  const SignInPath: string := "/?auth=login"

  datatype Screen = Spinner | Nothing | Children

  /** The element rendered. */
  function Render(mounted: bool, loading: bool, hasUser: bool): (sc: Screen)
    ensures sc == Spinner <==> !mounted || loading
    ensures sc == Children <==> mounted && !loading && hasUser
    ensures sc == Nothing <==> mounted && !loading && !hasUser
  {
    if !mounted || loading then Spinner
    else if !hasUser then Nothing
    else Children
  }

  /** The redirect effect's `router.push`, if it makes one. */
  function Redirect(loading: bool, hasUser: bool): (r: Option<string>)
    ensures r.Some? <==> !loading && !hasUser
    ensures r.Some? ==> r.value == SignInPath
  {
    if !loading && !hasUser then Some(SignInPath) else None
  }

  /** The children are never shown to a visitor being redirected, and the
      empty screen is only ever shown while redirecting. */
  lemma ChildrenOnlyWithoutRedirect(mounted: bool, loading: bool, hasUser: bool)
    ensures Render(mounted, loading, hasUser) == Children ==> Redirect(loading, hasUser).None?
    ensures Render(mounted, loading, hasUser) == Nothing ==> Redirect(loading, hasUser) == Some(SignInPath)
  {
  }

  /** Before the mount effect has run only the spinner is shown, whatever
      the auth state, so the first render never depends on it. */
  lemma FirstRenderIsSpinner(loading: bool, hasUser: bool)
    ensures Render(false, loading, hasUser) == Spinner
  {
  }

  /** The redirect effect's dependencies as the guard sees them: `loading`
      and whether there is a user. `None` before the effect first runs. */
  type Deps = Option<(bool, bool)>

  /** What one pass's redirect effect pushes: React runs the effect on
      mount and whenever `user` or `loading` changed since its last run;
      when it runs, it pushes as `Redirect` says. */
  function EffectPush(last: Deps, loading: bool, hasUser: bool): (r: Option<string>)
    ensures r.Some? <==> last != Some((loading, hasUser)) && !loading && !hasUser
    ensures r.Some? ==> r.value == SignInPath
  {
    if last == Some((loading, hasUser)) then None else Redirect(loading, hasUser)
  }

  /** A re-render with the same auth state (the one `setMounted(true)`
      causes, say) pushes nothing. */
  lemma RepeatedPassIsQuiet(loading: bool, hasUser: bool)
    ensures EffectPush(Some((loading, hasUser)), loading, hasUser).None?
  {
  }

  /** On mount the effect pushes exactly when auth has settled with no
      user. */
  lemma MountPushesIfSignedOut(loading: bool, hasUser: bool)
    ensures EffectPush(None, loading, hasUser) == Redirect(loading, hasUser)
  {
  }

  /** Signing out after a signed-in pass pushes once. */
  lemma SignOutPushes()
    ensures EffectPush(Some((false, true)), false, false) == Some(SignInPath)
    ensures EffectPush(Some((false, false)), false, false).None?
  {
  }

  class Guard {
    var mounted: bool
    var lastDeps: Deps

    constructor()
      ensures !mounted && lastDeps.None?
    {
      mounted := false;
      lastDeps := None;
    }

    /** One render followed by its effects: the screen is chosen with the
        current `mounted`, then the mount effect sets it and the redirect
        effect, when its dependencies changed, pushes if auth has settled
        with no user. */
    method RenderPass(loading: bool, hasUser: bool) returns (screen: Screen, redirect: Option<string>)
      modifies this
      ensures screen == Render(old(mounted), loading, hasUser)
      ensures redirect == EffectPush(old(lastDeps), loading, hasUser)
      ensures mounted && lastDeps == Some((loading, hasUser))
    {
      if !mounted || loading {
        screen := Spinner;
      } else if !hasUser {
        screen := Nothing;
      } else {
        screen := Children;
      }
      mounted := true;
      if lastDeps != Some((loading, hasUser)) && !loading && !hasUser {
        redirect := Some(SignInPath);
      } else {
        redirect := None;
      }
      lastDeps := Some((loading, hasUser));
    }
  }
}

/**
 * The session store of src/contexts/UserContext.tsx: the provider's state
 * `{user, isAuthenticated, loading}`, `refreshUser`, the handler of the
 * identity provider's auth-state events and the run-once initialisation
 * effect.  `refreshUser` is specified by the function `AfterRefresh` on a
 * value snapshot of the store, and the properties the store promises are
 * lemmas about that function.
 */
module UserSession {
  import opened Base
  import opened WebStorage
  import opened Auth

  /** A row of the `users` table as `select('*')` returns it. */
  datatype Profile = Profile(
    userId: int, username: string, email: string, locationId: int, createdAt: string, authUid: string)

  /** `JSON.stringify(userProfile)` as a flat JSON object. */
  function ProfileJson(p: Profile): map<string, Scalar> {
    map["user_id" := Num(p.userId), "username" := Str(p.username), "email" := Str(p.email),
        "location_id" := Num(p.locationId), "created_at" := Str(p.createdAt), "auth_uid" := Str(p.authUid)]
  }

  /** The identity provider's auth-state events the handler distinguishes. */
  datatype AuthEvent = SignedIn | SignedOut | OtherEvent(name: string)

  /** A snapshot of the provider's state together with `localStorage`. */
  datatype SessionState = SessionState(
    user: Option<Profile>, isAuthenticated: bool, loading: bool, storage: map<string, Stored>)

  /** The profile `refreshUser` ends with: found only when both lookups succeed. */
  function RefreshedProfile(session: Result<Option<AuthSession>>, profile: Result<Option<Profile>>): Option<Profile> {
    if session.Ok? && session.value.Some? && profile.Ok? && profile.value.Some? then profile.value else None
  }

  /** The state after a completed `refreshUser`, given the answers of its two lookups. */
  function AfterRefresh(s: SessionState, session: Result<Option<AuthSession>>, profile: Result<Option<Profile>>): SessionState {
    var found := RefreshedProfile(session, profile);
    if found.Some? then
      SessionState(found, true, false, s.storage["user" := Json(ProfileJson(found.value))])
    else
      SessionState(None, false, false, s.storage - {"user"})
  }

  /** The state after a `SIGNED_OUT` event. */
  function AfterSignOut(s: SessionState): SessionState {
    s.(user := None, isAuthenticated := false, storage := map[])
  }

  /** A successful refresh caches the profile under `user` and is authenticated. */
  lemma RefreshFound(s: SessionState, session: Result<Option<AuthSession>>, p: Profile)
    requires session.Ok? && session.value.Some?
    ensures AfterRefresh(s, session, Ok(Some(p))).user == Some(p)
    ensures AfterRefresh(s, session, Ok(Some(p))).isAuthenticated
    ensures AfterRefresh(s, session, Ok(Some(p))).storage == s.storage["user" := Json(ProfileJson(p))]
  {
  }

  /**
   * No session, a session error, or a failed profile lookup all end in the
   * same cleared state: no user, not authenticated, only `user` removed.
   */
  lemma RefreshCleared(s: SessionState, session: Result<Option<AuthSession>>, profile: Result<Option<Profile>>)
    requires session.Err? || session.value.None? || profile.Err? || profile.value.None?
    ensures AfterRefresh(s, session, profile) == SessionState(None, false, false, s.storage - {"user"})
  {
  }

  /** Whatever branch ran, loading ends false and authentication means a user is held. */
  lemma RefreshSettles(s: SessionState, session: Result<Option<AuthSession>>, profile: Result<Option<Profile>>)
    ensures !AfterRefresh(s, session, profile).loading
    ensures AfterRefresh(s, session, profile).isAuthenticated <==> AfterRefresh(s, session, profile).user.Some?
    ensures forall k :: k in s.storage && k != "user" ==>
              k in AfterRefresh(s, session, profile).storage && AfterRefresh(s, session, profile).storage[k] == s.storage[k]
    ensures forall k :: k in AfterRefresh(s, session, profile).storage ==> k in s.storage || k == "user"
  {
  }

  /** The outcome does not depend on the prior user, flags or `user` key. */
  lemma RefreshForgetsPriorSession(s1: SessionState, s2: SessionState,
                                   session: Result<Option<AuthSession>>, profile: Result<Option<Profile>>)
    requires s1.storage - {"user"} == s2.storage - {"user"}
    ensures AfterRefresh(s1, session, profile) == AfterRefresh(s2, session, profile)
  {
    var found := RefreshedProfile(session, profile);
    if found.Some? {
      var v := Json(ProfileJson(found.value));
      assert s1.storage["user" := v] == (s1.storage - {"user"})["user" := v];
      assert s2.storage["user" := v] == (s2.storage - {"user"})["user" := v];
    }
  }

  /** Repeating `refreshUser` with the same answers changes nothing more. */
  lemma RefreshIdempotent(s: SessionState, session: Result<Option<AuthSession>>, profile: Result<Option<Profile>>)
    ensures AfterRefresh(AfterRefresh(s, session, profile), session, profile) == AfterRefresh(s, session, profile)
  {
    RefreshForgetsPriorSession(AfterRefresh(s, session, profile), s, session, profile);
  }

  /** The React provider `UserProvider`. */
  class UserStore {
    var user: Option<Profile>
    var isAuthenticated: bool
    var loading: bool
    /** `hasRun.current` of the initialisation effect. */
    var hasRun: bool
    /** `mounted` of the effect's closure. */
    var mounted: bool
    /** whether the `onAuthStateChange` subscription is active */
    var subscribed: bool
    /** how many times the initialisation effect has called `refreshUser` */
    ghost var initialRefreshes: nat
    const browser: Browser

    ghost predicate Valid()
      reads this
    {
      initialRefreshes == (if hasRun then 1 else 0)
    }

    function State(): SessionState
      reads this, browser
    {
      SessionState(user, isAuthenticated, loading, browser.storage)
    }

    /** Initial state: no user, not authenticated, loading. */
    constructor (browser: Browser)
      ensures Valid()
      ensures this.browser == browser
      ensures user == None && !isAuthenticated && loading
      ensures !hasRun && !mounted && !subscribed
    {
      this.browser := browser;
      user, isAuthenticated, loading := None, false, true;
      hasRun, mounted, subscribed := false, false, false;
      initialRefreshes := 0;
    }

    /** `setIsAuthenticated(auth)` */
    method SetIsAuthenticated(auth: bool)
      modifies this
      ensures isAuthenticated == auth
      ensures user == old(user) && loading == old(loading)
      ensures hasRun == old(hasRun) && mounted == old(mounted) && subscribed == old(subscribed)
      ensures initialRefreshes == old(initialRefreshes)
    {
      isAuthenticated := auth;
    }

    /**
     * `refreshUser`: fetch the current session, then the profile whose
     * `auth_uid` is the session user's id.  `lookedUp` is the id the profile
     * query used, when the query was issued.
     */
    method RefreshUser(session: Result<Option<AuthSession>>, profile: Result<Option<Profile>>)
      returns (lookedUp: Option<string>)
      modifies this, browser
      ensures State() == AfterRefresh(old(State()), session, profile)
      ensures lookedUp == if session.Ok? && session.value.Some? then Some(session.value.value.user.id) else None
      ensures browser.history == old(browser.history) && browser.alerts == old(browser.alerts)
      ensures hasRun == old(hasRun) && mounted == old(mounted) && subscribed == old(subscribed)
      ensures initialRefreshes == old(initialRefreshes)
    {
      loading := true;
      lookedUp := None;
      if session.Err? || session.value.None? {
        user := None;
        isAuthenticated := false;
        browser.RemoveItem("user");
      } else {
        lookedUp := Some(session.value.value.user.id);
        if profile.Err? || profile.value.None? {
          // `throw new Error('User profile not found')`, caught below
          user := None;
          isAuthenticated := false;
          browser.RemoveItem("user");
        } else {
          user := profile.value;
          isAuthenticated := true;
          browser.SetItem("user", Json(ProfileJson(profile.value.value)));
        }
      }
      loading := false;
    }

    /**
     * The `onAuthStateChange` callback.  `SIGNED_OUT` clears the user and
     * all of `localStorage`; `SIGNED_IN` with a session re-runs
     * `refreshUser`; every other event, and every event once the effect
     * was cleaned up, changes nothing.
     */
    method OnAuthStateChange(event: AuthEvent, eventSession: Option<AuthSession>,
                             session: Result<Option<AuthSession>>, profile: Result<Option<Profile>>)
      modifies this, browser
      ensures !(old(subscribed) && old(mounted)) ==> State() == old(State())
      ensures old(subscribed) && old(mounted) && event == SignedOut ==> State() == AfterSignOut(old(State()))
      ensures old(subscribed) && old(mounted) && event == SignedIn && eventSession.Some? ==>
                State() == AfterRefresh(old(State()), session, profile)
      ensures event.OtherEvent? || (event == SignedIn && eventSession.None?) ==> State() == old(State())
      ensures browser.history == old(browser.history) && browser.alerts == old(browser.alerts)
      ensures hasRun == old(hasRun) && mounted == old(mounted) && subscribed == old(subscribed)
      ensures initialRefreshes == old(initialRefreshes)
    {
      if !(subscribed && mounted) {
        return;
      }
      if event == SignedOut {
        user := None;
        isAuthenticated := false;
        browser.Clear();
      } else if event == SignedIn && eventSession.Some? {
        var _ := RefreshUser(session, profile);
      }
    }

    /**
     * The initialisation effect: on its first run it marks itself as run,
     * calls `refreshUser` and subscribes to auth-state events; every later
     * run returns at once.
     */
    method Initialize(session: Result<Option<AuthSession>>, profile: Result<Option<Profile>>)
      requires Valid()
      modifies this, browser
      ensures Valid() && hasRun
      ensures initialRefreshes <= 1
      ensures old(hasRun) ==> State() == old(State()) && mounted == old(mounted) && subscribed == old(subscribed)
      ensures !old(hasRun) ==> State() == AfterRefresh(old(State()), session, profile) && mounted && subscribed
      ensures browser.history == old(browser.history) && browser.alerts == old(browser.alerts)
    {
      if hasRun {
        return;
      }
      hasRun := true;
      mounted := true;
      var _ := RefreshUser(session, profile);
      initialRefreshes := initialRefreshes + 1;
      subscribed := true;
    }

    /** The effect's cleanup: `mounted = false` and unsubscribe. */
    method Cleanup()
      modifies this
      ensures !mounted && !subscribed
      ensures State() == old(State()) && hasRun == old(hasRun)
      ensures initialRefreshes == old(initialRefreshes) && (old(Valid()) ==> Valid())
    {
      mounted := false;
      subscribed := false;
    }
  }

  /**
   * When the effect runs, is cleaned up and runs again (as React's strict
   * mode does), the second run returns at once because `hasRun` is already
   * set: `refreshUser` ran once and no subscription is left listening.
   */
  method RemountLeavesNoSubscription(browser: Browser,
                                     session: Result<Option<AuthSession>>, profile: Result<Option<Profile>>)
    returns (store: UserStore)
    modifies browser
    ensures store.initialRefreshes == 1
    ensures !store.subscribed && !store.mounted
  {
    store := new UserStore(browser);
    store.Initialize(session, profile);
    store.Cleanup();
    store.Initialize(session, profile);
  }
}

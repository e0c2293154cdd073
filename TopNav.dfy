/**
 * The top bar of every signed-in page (src/components/topnav.tsx): the
 * page title chosen on each path change, the active-icon test and the
 * profile popover flag.
 *
 * The title effect reads `localStorage.getItem('user')`.  A stored plain
 * text that is not JSON makes `JSON.parse` throw, and a truthy `name` that
 * is not a string makes `name.charAt` throw; either way the effect stops
 * before `setPageTitle`.  No error boundary catches it, so React unmounts
 * the whole tree: the bar records this as `crashed`, after which nothing
 * is rendered and no further event reaches it.
 */
module TopNav {
  import opened Base
  import opened WebStorage
  import UserSession
  import AuthController
  import Auth

  /** `pageTitles`: every entry is a non-empty text. */
  const PageTitles: map<string, string> := map[
    "/homepage" := "Welcome! Hazel",
    "/dashboards" := "Live compost and plant tracking",
    "/chatbot" := "Composting Assistant Chatbot",
    "/segmentation" := "Compost Data Segmentation",
    "/predictive" := "Predictive modelling",
    "/user" := "Profile",
    "/community" := "Community Forum",
    "/notification" := "Notification",
    "/faq" := "Frequently Asked Questions"]

  /** `pageTitles[path] || ''` */
  function TableTitle(path: string): (t: string)
    ensures path in PageTitles ==> t == PageTitles[path] && t != ""
    ensures path !in PageTitles ==> t == ""
  {
    if path in PageTitles then PageTitles[path] else ""
  }

  /** What `user?.name` of the parsed `user` item is. */
  datatype NameLookup = NoName | Name(name: string) | Throws

  /**
   * `JSON.parse(localStorage.getItem('user') || '{}')?.name`: a missing or
   * empty item reads as `{}`; a non-empty plain text does not parse; a
   * falsy name (`''`, `0`, `null`, absent) is no name; a non-zero number
   * is truthy but has no `charAt`.
   */
  function StoredName(storage: map<string, Stored>): (r: NameLookup)
    ensures r.Name? ==> r.name != ""
    ensures "user" !in storage ==> r == NoName
  {
    if "user" !in storage then NoName
    else match storage["user"]
      case Text(t) => if t == "" then NoName else Throws
      case Json(fields) =>
        if "name" !in fields then NoName
        else match fields["name"]
          case Str(s) => if s == "" then NoName else Name(s)
          case Num(n) => if n == 0 then NoName else Throws
          case Null => NoName
  }

  /** `name.charAt(0).toUpperCase() + name.slice(1)` */
  function Capitalized(name: string): (c: string)
    requires name != ""
    ensures |c| == |name| && c[0] == UpperChar(name[0]) && c[1..] == name[1..]
  {
    [UpperChar(name[0])] + name[1..]
  }

  /**
   * The title the effect sets for `path`, or `None` when the effect throws
   * before setting it.
   */
  function Title(path: string, storage: map<string, Stored>): (t: Option<string>)
    ensures path != "/homepage" ==> t == Some(TableTitle(path))
    ensures path == "/homepage" ==> (t.None? <==> StoredName(storage).Throws?)
  {
    var title := TableTitle(path);
    if path != "/homepage" then Some(title)
    else match StoredName(storage)
      case Throws => None
      case NoName => Some(title)
      case Name(n) => Some("Welcome! " + Capitalized(n))
  }

  /** With a stored name the greeting is the name with only its first character upper-cased. */
  lemma GreetingUsesName(storage: map<string, Stored>)
    requires StoredName(storage).Name?
    ensures var n := StoredName(storage).name;
            var t := Title("/homepage", storage);
            t.Some? && |t.value| == 9 + |n| && t.value[..9] == "Welcome! "
            && t.value[9] == UpperChar(n[0]) && t.value[10..] == n[1..]
  {
    var n := StoredName(storage).name;
    var t := "Welcome! " + Capitalized(n);
    assert t[9..] == Capitalized(n);
    assert t[10..] == Capitalized(n)[1..];
  }

  /** Without a stored name the homepage keeps its table title. */
  lemma GreetingDefault(storage: map<string, Stored>)
    requires StoredName(storage).NoName?
    ensures Title("/homepage", storage) == Some("Welcome! Hazel")
  {
  }

  /**
   * The profile `refreshUser` caches under `user` has a `username` and no
   * `name` field, and a failed refresh removes `user`: either way the
   * homepage reads "Welcome! Hazel" afterwards.
   */
  lemma RefreshedSessionKeepsDefault(s: UserSession.SessionState, session: Result<Option<Auth.AuthSession>>,
                                     profile: Result<Option<UserSession.Profile>>)
    ensures Title("/homepage", UserSession.AfterRefresh(s, session, profile).storage) == Some("Welcome! Hazel")
  {
    var after := UserSession.AfterRefresh(s, session, profile);
    if UserSession.RefreshedProfile(session, profile).Some? {
      var p := UserSession.RefreshedProfile(session, profile).value;
      assert after.storage["user"] == Json(UserSession.ProfileJson(p));
      assert "name" !in UserSession.ProfileJson(p);
    } else {
      assert "user" !in after.storage;
    }
  }

  /** The public user the backend's login returns, stored under `user`, greets by its name when there is one. */
  lemma BackendLoginGreets(storage: map<string, Stored>, a: AuthController.Account)
    requires a.username != ""
    ensures Title("/homepage", storage["user" := Json(AuthController.PublicUser(a))]) == Some("Welcome! " + Capitalized(a.username))
  {
    assert "name" in AuthController.PublicUser(a) && AuthController.PublicUser(a)["name"] == Str(a.username);
  }

  class TopNavBar {
    const browser: Browser
    var pathname: string
    var pageTitle: string
    var showPopover: bool
    /** An effect threw and the tree was unmounted. */
    var crashed: bool

    /** Mounting: the title starts as `''` and the effect then runs for the first path. */
    constructor (browser: Browser, pathname: string)
      ensures this.browser == browser && this.pathname == pathname && !showPopover
      ensures crashed <==> Title(pathname, browser.storage).None?
      ensures pageTitle == OrElse(Title(pathname, browser.storage), "")
    {
      this.browser, this.pathname := browser, pathname;
      pageTitle, showPopover, crashed := "", false, false;
      new;
      RunTitleEffect();
    }

    /**
     * The title effect: set the computed title, or crash the tree when the
     * effect throws (the title state is then no longer shown).
     */
    method RunTitleEffect()
      modifies this`pageTitle, this`crashed
      ensures crashed <==> old(crashed) || Title(pathname, browser.storage).None?
      ensures pageTitle == OrElse(Title(pathname, browser.storage), old(pageTitle))
    {
      var t := Title(pathname, browser.storage);
      if t.Some? {
        pageTitle := t.value;
      } else {
        crashed := true;
      }
    }

    /** A route change, which only a mounted bar receives: the effect re-runs only when the pathname changed. */
    method ChangePath(path: string)
      requires !crashed
      modifies this`pathname, this`pageTitle, this`crashed
      ensures pathname == path
      ensures path == old(pathname) ==> pageTitle == old(pageTitle) && !crashed
      ensures path != old(pathname) ==> crashed == Title(path, browser.storage).None?
      ensures path != old(pathname) ==> pageTitle == OrElse(Title(path, browser.storage), old(pageTitle))
    {
      if path != pathname {
        pathname := path;
        RunTitleEffect();
      }
    }

    /** `isActive(path)` */
    predicate IsActive(path: string)
      reads this
    {
      pathname == path
    }

    /** The profile button. */
    method ToggleProfile()
      requires !crashed
      modifies this`showPopover
      ensures showPopover == !old(showPopover)
    {
      showPopover := !showPopover;
    }

    /** The popover's `onClose`. */
    method ClosePopover()
      requires !crashed
      modifies this`showPopover
      ensures !showPopover
    {
      showPopover := false;
    }
  }

  /** `value` when present, otherwise `fallback`. */
  function OrElse(t: Option<string>, fallback: string): (r: string)
    ensures t.Some? ==> r == t.value
    ensures t.None? ==> r == fallback
  {
    if t.Some? then t.value else fallback
  }

  /** Two different paths are never both active. */
  lemma ActiveIsExact(bar: TopNavBar, p: string, q: string)
    requires bar.IsActive(p) && bar.IsActive(q)
    ensures p == q
  {
  }
}

/**
 * The sign-in / registration form, in both copies: src/components/loginform.tsx
 * (Root, which signs in through the REST endpoint `loginUser`) and
 * vermi-backend/src/components/loginform.tsx (Backend, which signs in at the
 * identity provider and then refreshes the session store).  Both share
 * `validateForm`, `getInputStyles`, `formatName`, the register branch that
 * parks the form in `tempAuthData`, and the mode toggle.
 */
module Login {
  import opened Base
  import opened WebStorage
  import opened Auth
  import opened UserSession
  import opened TankSelection

  // ---------------------------------------------------------------------
  // the email pattern /\S+@\S+\.\S+/

  predicate NoSpace(w: string) {
    forall i :: 0 <= i < |w| ==> !IsSpace(w[i])
  }

  /** `w` as a whole matches `\S+@\S+\.\S+`. */
  ghost predicate MatchesWhole(w: string) {
    NoSpace(w) && exists a, b :: 0 < a && a + 1 < b < |w| - 1 && w[a] == '@' && w[b] == '.'
  }

  /** `RegExp.test` of the unanchored pattern: some substring matches it whole. */
  ghost predicate PatternTest(s: string) {
    exists i, j :: 0 <= i <= j <= |s| && MatchesWhole(s[i..j])
  }

  /**
   * The shortest match around an `@` at `p` and a `.` at `q`: one non-space
   * before the `@`, a run of non-spaces up to the `.`, one non-space after.
   */
  predicate ShortMatchAt(s: string, p: int, q: int)
    requires 1 <= p && p + 1 < q < |s| - 1
  {
    s[p] == '@' && s[q] == '.' && !IsSpace(s[p - 1]) && !IsSpace(s[q + 1])
    && forall r | p < r < q :: !IsSpace(s[r])
  }

  /** The decision the form makes for `/\S+@\S+\.\S+/.test(email)`. */
  predicate EmailShape(s: string) {
    exists p, q | 1 <= p && p + 1 < q < |s| - 1 :: ShortMatchAt(s, p, q)
  }

  /** The decision procedure agrees with the regular expression's semantics. */
  lemma EmailShapeIsPatternTest(s: string)
    ensures EmailShape(s) <==> PatternTest(s)
  {
    if EmailShape(s) {
      var p, q :| 1 <= p && p + 1 < q < |s| - 1 && ShortMatchAt(s, p, q);
      var w := s[p - 1..q + 2];
      forall k | 0 <= k < |w| ensures !IsSpace(w[k]) {
        assert w[k] == s[p - 1 + k];
      }
      assert w[1] == '@' && w[q - p + 1] == '.';
      assert MatchesWhole(w);
    }
    if PatternTest(s) {
      var i, j :| 0 <= i <= j <= |s| && MatchesWhole(s[i..j]);
      var w := s[i..j];
      var a, b :| 0 < a && a + 1 < b < |w| - 1 && w[a] == '@' && w[b] == '.';
      var p, q := i + a, i + b;
      assert s[p - 1] == w[a - 1] && s[q + 1] == w[b + 1];
      forall r | p < r < q ensures !IsSpace(s[r]) {
        assert s[r] == w[r - i];
      }
      assert ShortMatchAt(s, p, q);
    }
  }

  lemma EmailExamples()
    ensures EmailShape("jane@site.org")
    ensures !EmailShape("jane@site")
    ensures !EmailShape("jane @.org")
  {
    assert ShortMatchAt("jane@site.org", 4, 9);
  }

  // ---------------------------------------------------------------------
  // validateForm

  /** The names `validateForm` may record an error under. */
  const FormFields: set<string> := {"email", "password", "name", "confirmPassword"}

  /** The email check: required first, then the pattern. */
  function EmailError(email: string): (r: Option<string>)
    ensures r == Some("Email is required") <==> email == ""
  {
    if email == "" then Some("Email is required")
    else if !EmailShape(email) then Some("Email is invalid")
    else None
  }

  /** The password check: required first, then at least 8 characters. */
  function PasswordError(password: string): (r: Option<string>)
    ensures r.None? <==> |password| >= 8
    ensures r == Some("Password is required") <==> password == ""
  {
    if password == "" then Some("Password is required")
    else if |password| < 8 then Some("Password must be at least 8 characters")
    else None
  }

  /** Add `key := message` when there is a message. */
  function Record(errors: map<string, string>, key: string, message: Option<string>): map<string, string> {
    if message.Some? then errors[key := message.value] else errors
  }

  /** The error record `validateForm` builds. */
  function FieldErrors(email: string, password: string, name: string, confirmPassword: string, isNewUser: bool)
    : map<string, string>
  {
    var e := Record(map[], "email", EmailError(email));
    var e := Record(e, "password", PasswordError(password));
    var e := Record(e, "name", if isNewUser && name == "" then Some("Name is required") else None);
    Record(e, "confirmPassword", if isNewUser && password != confirmPassword then Some("Passwords must match") else None)
  }

  /**
   * Each field has its own error entry, present exactly when its check
   * fails; `name` and `confirmPassword` are checked only when registering;
   * and the form is valid exactly when every check passes.
   */
  lemma FieldErrorsSpec(email: string, password: string, name: string, confirmPassword: string, isNewUser: bool)
    ensures FieldErrors(email, password, name, confirmPassword, isNewUser).Keys <= FormFields
    ensures var e := FieldErrors(email, password, name, confirmPassword, isNewUser);
      && ("email" in e <==> EmailError(email).Some?)
      && ("email" in e ==> e["email"] == EmailError(email).value)
      && ("password" in e <==> PasswordError(password).Some?)
      && ("password" in e ==> e["password"] == PasswordError(password).value)
      && ("name" in e <==> isNewUser && name == "")
      && ("confirmPassword" in e <==> isNewUser && password != confirmPassword)
    ensures FieldErrors(email, password, name, confirmPassword, isNewUser) == map[] <==>
              email != "" && PatternTest(email) && |password| >= 8 && (isNewUser ==> name != "" && password == confirmPassword)
  {
    EmailShapeIsPatternTest(email);
    var e := FieldErrors(email, password, name, confirmPassword, isNewUser);
    if e == map[] {
      assert "email" !in e && "password" !in e && "name" !in e && "confirmPassword" !in e;
    }
  }

  // ---------------------------------------------------------------------
  // formatName

  /** `word.charAt(0).toUpperCase() + word.slice(1).toLowerCase()` */
  function Capitalize(word: string): string {
    if word == [] then [] else [UpperChar(word[0])] + Lower(word[1..])
  }

  function CapitalizeAll(words: seq<string>): (r: seq<string>)
    ensures |r| == |words|
    ensures forall i :: 0 <= i < |words| ==> r[i] == Capitalize(words[i])
  {
    seq(|words|, i requires 0 <= i < |words| => Capitalize(words[i]))
  }

  /** `name.trim().split(' ').map(capitalize).join(' ')` */
  function FormatName(name: string): string {
    Join(CapitalizeAll(Split(Trim(name), ' ')), ' ')
  }

  /**
   * The reference reading of `formatName` on a trimmed string: a character
   * that opens a word (the first one, or one after a space) is upper-cased,
   * every other one is lower-cased.  `start` says whether position 0 opens
   * a word.
   */
  function CapWords(s: string, start: bool): (r: string)
    ensures |r| == |s|
  {
    seq(|s|, i requires 0 <= i < |s| =>
      if (if i == 0 then start else s[i - 1] == ' ') then UpperChar(s[i]) else LowerChar(s[i]))
  }

  lemma CapWordsCons(s: string, start: bool)
    requires s != []
    ensures CapWords(s, start) ==
              [if start then UpperChar(s[0]) else LowerChar(s[0])] + CapWords(s[1..], s[0] == ' ')
  {
  }

  lemma JoinConsChar(c: char, p: string, ps: seq<string>, sep: char)
    ensures Join([[c] + p] + ps, sep) == [c] + Join([p] + ps, sep)
  {
    if ps != [] {
      assert ([[c] + p] + ps)[1..] == ps;
      assert ([p] + ps)[1..] == ps;
    }
  }

  /** The pipeline of `formatName` on an already trimmed string is `CapWords`. */
  ghost predicate PipelineFromStart(s: string) {
    Join(CapitalizeAll(Split(s, ' ')), ' ') == CapWords(s, true)
  }

  /** The same with the first word only lower-cased (it continues an earlier word). */
  ghost predicate PipelineMidWord(s: string) {
    var parts := Split(s, ' ');
    Join([Lower(parts[0])] + CapitalizeAll(parts[1..]), ' ') == CapWords(s, false)
  }

  lemma PipelineSpace(s: string)
    requires s != [] && s[0] == ' '
    requires PipelineFromStart(s[1..])
    ensures PipelineFromStart(s) && PipelineMidWord(s)
  {
    CapWordsCons(s, true);
    CapWordsCons(s, false);
    var rest := Split(s[1..], ' ');
    var parts := Split(s, ' ');
    assert parts == [""] + rest;
    assert CapitalizeAll(parts) == [""] + CapitalizeAll(rest);
    assert parts[1..] == rest;
    assert Lower(parts[0]) == "";
    assert Join([""] + CapitalizeAll(rest), ' ') == [' '] + Join(CapitalizeAll(rest), ' ');
  }

  lemma PipelineLetter(s: string)
    requires s != [] && s[0] != ' '
    requires PipelineMidWord(s[1..])
    ensures PipelineFromStart(s) && PipelineMidWord(s)
  {
    CapWordsCons(s, true);
    CapWordsCons(s, false);
    var rest := Split(s[1..], ' ');
    var parts := Split(s, ' ');
    var c := s[0];
    var tail := CapitalizeAll(rest[1..]);
    assert parts == [[c] + rest[0]] + rest[1..];
    assert parts[1..] == rest[1..];
    assert Capitalize([c] + rest[0]) == [UpperChar(c)] + Lower(rest[0]);
    assert CapitalizeAll(parts) == [[UpperChar(c)] + Lower(rest[0])] + tail;
    JoinConsChar(UpperChar(c), Lower(rest[0]), tail, ' ');
    assert Lower(parts[0]) == [LowerChar(c)] + Lower(rest[0]);
    JoinConsChar(LowerChar(c), Lower(rest[0]), tail, ' ');
  }

  lemma {:induction false} PipelineIsCapWords(s: string)
    ensures PipelineFromStart(s) && PipelineMidWord(s)
  {
    if s == [] {
      assert Split(s, ' ') == [""];
      assert Lower("") == "";
    } else {
      PipelineIsCapWords(s[1..]);
      if s[0] == ' ' {
        PipelineSpace(s);
      } else {
        PipelineLetter(s);
      }
    }
  }

  /** `formatName` is `CapWords` of the trimmed name. */
  lemma FormatNameIsCapWords(name: string)
    ensures FormatName(name) == CapWords(Trim(name), true)
  {
    PipelineIsCapWords(Trim(name));
  }

  /**
   * `formatName` only changes letter case: it has the trimmed name's
   * length, spaces stay where they are, and each word's first letter is
   * upper-case, every other letter lower-case.
   */
  lemma FormatNameShape(name: string)
    ensures |FormatName(name)| == |Trim(name)|
    ensures forall i :: 0 <= i < |Trim(name)| ==>
              FormatName(name)[i] == (if i == 0 || Trim(name)[i - 1] == ' ' then UpperChar(Trim(name)[i]) else LowerChar(Trim(name)[i]))
    ensures Lower(FormatName(name)) == Lower(Trim(name))
  {
    FormatNameIsCapWords(name);
    var t := Trim(name);
    var f := FormatName(name);
    forall i | 0 <= i < |t| ensures LowerChar(f[i]) == LowerChar(t[i]) {
      CaseMappingAbsorbs(t[i]);
    }
    assert Lower(f) == Lower(t);
  }

  /** `CapWords` from the start of a word is idempotent. */
  lemma CapWordsIdempotent(t: string)
    ensures CapWords(CapWords(t, true), true) == CapWords(t, true)
  {
    var f := CapWords(t, true);
    var g := CapWords(f, true);
    forall i | 0 <= i < |f| ensures g[i] == f[i] {
      var opens := i == 0 || t[i - 1] == ' ';
      if i > 0 {
        CaseMappingKeepsSpace(t[i - 1]);
        assert f[i - 1] == ' ' <==> t[i - 1] == ' ';
      }
      CaseMappingAbsorbs(t[i]);
      if opens {
        assert f[i] == UpperChar(t[i]) && g[i] == UpperChar(f[i]);
      } else {
        assert f[i] == LowerChar(t[i]) && g[i] == LowerChar(f[i]);
      }
    }
  }

  /** Case mapping keeps a string's ends free of whitespace. */
  lemma CapWordsKeepsEnds(t: string)
    requires t != [] ==> !IsSpace(t[0]) && !IsSpace(t[|t| - 1])
    ensures var f := CapWords(t, true); f != [] ==> !IsSpace(f[0]) && !IsSpace(f[|f| - 1])
  {
    if t != [] {
      CaseMappingKeepsSpace(t[0]);
      CaseMappingKeepsSpace(t[|t| - 1]);
    }
  }

  /** Formatting a formatted name changes nothing. */
  lemma FormatNameIdempotent(name: string)
    ensures FormatName(FormatName(name)) == FormatName(name)
  {
    var t := Trim(name);
    var f := CapWords(t, true);
    FormatNameIsCapWords(name);
    CapWordsKeepsEnds(t);
    TrimNoOp(f);
    FormatNameIsCapWords(f);
    CapWordsIdempotent(t);
  }

  lemma CapWordsExample()
    ensures CapWords("jane doe", true) == "Jane Doe"
  {
  }

  /** `formatName` of "jane doe". */
  lemma FormatNameExample(a: string)
    requires a == "jane doe"
    ensures FormatName(a) == "Jane Doe"
  {
    TrimNoOp(a);
    FormatNameIsCapWords(a);
    CapWordsExample();
  }

  // ---------------------------------------------------------------------
  // values the form writes and shows

  /** `JSON.stringify({name, email, password})` of the register branch. */
  function TempAuthJson(name: string, email: string, password: string): map<string, Scalar> {
    map["name" := Str(name), "email" := Str(email), "password" := Str(password)]
  }

  /** What the form parks in `tempAuthData` is what the tank page reads back. */
  lemma TempAuthRoundTrip(name: string, email: string, password: string, parseFailure: Thrown)
    ensures ParseTempAuth(Json(TempAuthJson(name, email, password)), parseFailure) == Ok(Pending(name, email, password))
  {
  }

  /**
   * Backend: the message shown for a failed sign-in.  On a thrown `null`,
   * or a value whose `message` is `undefined`, the `.includes` call throws
   * inside the `catch` and no message is set (`None`).
   */
  function LoginErrorMessage(t: Thrown): Option<string> {
    if !t.ThrownValue? then None
    else if Contains(t.message, "Invalid login credentials") then Some("Invalid email or password")
    else Some(MessageOr(t.message, "Login failed"))
  }

  /**
   * Exactly the thrown values with a `message` get a non-empty message;
   * the provider's wrong password text is replaced, any other text is
   * shown as it is.
   */
  lemma LoginErrorMessageSpec(t: Thrown)
    ensures LoginErrorMessage(t).Some? <==> t.ThrownValue?
    ensures LoginErrorMessage(t).Some? ==> LoginErrorMessage(t).value != ""
    ensures t.ThrownValue? && Contains(t.message, "Invalid login credentials") ==>
              LoginErrorMessage(t) == Some("Invalid email or password")
    ensures t.ThrownValue? && t.message != "" && !Contains(t.message, "Invalid login credentials") ==>
              LoginErrorMessage(t) == Some(t.message)
    ensures t.ThrownValue? && t.message == "" ==> LoginErrorMessage(t) == Some("Login failed")
  {
    if t.ThrownValue? && t.message == "" {
      ContainsTooLong("", "Invalid login credentials");
    }
  }

  /** A session failure shows the `getSession` message itself. */
  lemma SessionFailureMessage()
    ensures LoginErrorMessage(ThrownValue(true, "Session not available")) == Some("Session not available")
  {
    ContainsTooLong("Session not available", "Invalid login credentials");
  }

  /** Which of the three style strings `getInputStyles` returns. */
  datatype InputStyle = ErrorStyle | FilledStyle | BaseStyle

  /**
   * `getInputStyles(field, value)`: the error style when the field has a
   * (non-empty) error and was touched, else the filled style when the value
   * is non-empty and the field was touched, else the base style.
   */
  function InputStyleOf(formErrors: map<string, string>, touched: map<string, bool>, field: string, value: string)
    : (r: InputStyle)
    ensures r == ErrorStyle <==> field in formErrors && formErrors[field] != "" && field in touched && touched[field]
    ensures r == FilledStyle <==> !(field in formErrors && formErrors[field] != "") && value != "" && field in touched && touched[field]
    ensures r == BaseStyle <==> !(field in touched && touched[field]) || (!(field in formErrors && formErrors[field] != "") && value == "")
  {
    var hasError := field in formErrors && formErrors[field] != "";
    var wasTouched := field in touched && touched[field];
    if hasError && wasTouched then ErrorStyle
    else if value != "" && wasTouched then FilledStyle
    else BaseStyle
  }

  /** An untouched field always has the base style, whatever its error or value. */
  lemma UntouchedIsBase(formErrors: map<string, string>, field: string, value: string)
    ensures InputStyleOf(formErrors, map[], field, value) == BaseStyle
  {
  }

  /** Root's `loginUser` response: `token` and `message` read as "" when absent. */
  datatype LoginResponse = LoginResponse(token: string, user: map<string, Scalar>, message: string)

  // ---------------------------------------------------------------------
  // the component

  class LoginForm {
    const variant: Variant
    const browser: Browser
    /** Backend only: the session store of `useUser()`. */
    const userStore: UserStore
    var name: string
    var email: string
    var password: string
    var confirmPassword: string
    var isNewUser: bool
    var formErrors: map<string, string>
    var touchedFields: map<string, bool>
    /** Backend only: `loginError`. */
    var loginError: Option<string>
    /** How many times the `onLogin` prop was called. */
    var onLoginCalls: nat

    predicate Linked() {
      userStore.browser == browser
    }

    constructor (variant: Variant, browser: Browser, userStore: UserStore)
      requires userStore.browser == browser
      ensures Linked()
      ensures this.variant == variant && this.browser == browser && this.userStore == userStore
      ensures name == "" && email == "" && password == "" && confirmPassword == ""
      ensures !isNewUser && formErrors == map[] && touchedFields == map[]
      ensures loginError == None && onLoginCalls == 0
    {
      this.variant, this.browser, this.userStore := variant, browser, userStore;
      name, email, password, confirmPassword := "", "", "", "";
      isNewUser, formErrors, touchedFields := false, map[], map[];
      loginError, onLoginCalls := None, 0;
    }

    /** An `onChange` of one of the four inputs. */
    method Edit(field: string, value: string)
      requires field in FormFields
      modifies this`name, this`email, this`password, this`confirmPassword
      ensures name == (if field == "name" then value else old(name))
      ensures email == (if field == "email" then value else old(email))
      ensures password == (if field == "password" then value else old(password))
      ensures confirmPassword == (if field == "confirmPassword" then value else old(confirmPassword))
    {
      if field == "name" {
        name := value;
      } else if field == "email" {
        email := value;
      } else if field == "password" {
        password := value;
      } else {
        confirmPassword := value;
      }
    }

    /** An `onBlur`: `setTouchedFields(prev => ({...prev, [field]: true}))`. */
    method Touch(field: string)
      modifies this`touchedFields
      ensures touchedFields == old(touchedFields)[field := true]
    {
      touchedFields := touchedFields[field := true];
    }

    /** `validateForm`: fill the error record field by field and store it. */
    method ValidateForm() returns (valid: bool)
      modifies this`formErrors
      ensures formErrors == FieldErrors(email, password, name, confirmPassword, isNewUser)
      ensures valid <==> formErrors == map[]
    {
      var errors: map<string, string> := map[];
      errors := Record(errors, "email", EmailError(email));
      errors := Record(errors, "password", PasswordError(password));
      if isNewUser {
        if name == "" {
          errors := errors["name" := "Name is required"];
        }
        if password != confirmPassword {
          errors := errors["confirmPassword" := "Passwords must match"];
        }
      }
      formErrors := errors;
      valid := |errors| == 0;
    }

    /** The register branch: park the form in `tempAuthData` and go to tank selection. */
    method ParkRegistration()
      modifies browser
      ensures browser.storage == old(browser.storage)["tempAuthData" := Json(TempAuthJson(FormatName(name), email, password))]
      ensures browser.history == old(browser.history) + ["/select-tank"]
      ensures browser.alerts == old(browser.alerts)
    {
      browser.SetItem("tempAuthData", Json(TempAuthJson(FormatName(name), email, password)));
      browser.Navigate("/select-tank");
    }

    /**
     * The `try` block of Backend's sign-in branch.  `signInCall` is the
     * request sent to the identity provider.  On success the three keys are
     * written, `onLogin` is called, the store is marked authenticated and
     * refreshed, and the page moves to `/homepage`; a failure shows
     * `LoginErrorMessage` of what was thrown.
     */
    method SignIn(signInAnswer: Result<SignInData>, sessionAnswer: Result<Option<AuthSession>>,
                  refreshSession: Result<Option<AuthSession>>, refreshProfile: Result<Option<Profile>>)
      returns (signInCall: AuthCall)
      requires Linked()
      modifies this`loginError, this`onLoginCalls, browser, userStore
      ensures signInCall == SignInWithPassword(NormalizeEmail(email), password)
      ensures browser.alerts == old(browser.alerts)
      ensures userStore.hasRun == old(userStore.hasRun) && userStore.mounted == old(userStore.mounted)
      ensures userStore.subscribed == old(userStore.subscribed)
      ensures signInAnswer.Err? || GetSession(sessionAnswer).Err? ==>
                loginError == LoginErrorMessage(if signInAnswer.Err? then signInAnswer.thrown else GetSession(sessionAnswer).thrown)
                && onLoginCalls == old(onLoginCalls)
                && browser.history == old(browser.history) && userStore.State() == old(userStore.State())
      ensures signInAnswer.Ok? && GetSession(sessionAnswer).Ok? ==>
                var s := GetSession(sessionAnswer).value;
                var stored := old(browser.storage)["userId" := Text(s.user.id)]["accessToken" := Text(s.accessToken)]
                                ["email" := Text(if s.user.email.Some? then s.user.email.value else "")];
                && loginError == None && onLoginCalls == old(onLoginCalls) + 1
                && userStore.State() ==
                     AfterRefresh(old(userStore.State()).(isAuthenticated := true, storage := stored), refreshSession, refreshProfile)
                && browser.history == old(browser.history) + ["/homepage"]
    {
      loginError := None;
      var signedIn;
      signedIn, signInCall := SignInUser(email, password, signInAnswer);
      if signedIn.Err? {
        loginError := LoginErrorMessage(signedIn.thrown);
        return;
      }
      var session := GetSession(sessionAnswer);
      if session.Err? {
        loginError := LoginErrorMessage(session.thrown);
        return;
      }
      var s := session.value;
      browser.SetItem("userId", Text(s.user.id));
      browser.SetItem("accessToken", Text(s.accessToken));
      browser.SetItem("email", Text(if s.user.email.Some? then s.user.email.value else ""));
      onLoginCalls := onLoginCalls + 1;
      userStore.SetIsAuthenticated(true);
      var _ := userStore.RefreshUser(refreshSession, refreshProfile);
      browser.Navigate("/homepage");
    }

    /**
     * Backend `handleSubmit`: validate, then either park the registration
     * or run `SignIn` (`signInCall` is its request, when it ran).
     */
    method SubmitBackend(signInAnswer: Result<SignInData>, sessionAnswer: Result<Option<AuthSession>>,
                         refreshSession: Result<Option<AuthSession>>, refreshProfile: Result<Option<Profile>>)
      returns (signInCall: Option<AuthCall>)
      requires variant == Backend && Linked()
      modifies this`formErrors, this`loginError, this`onLoginCalls, browser, userStore
      ensures formErrors == FieldErrors(email, password, name, confirmPassword, isNewUser)
      ensures browser.alerts == old(browser.alerts)
      ensures userStore.hasRun == old(userStore.hasRun) && userStore.mounted == old(userStore.mounted)
      ensures userStore.subscribed == old(userStore.subscribed)
      ensures signInCall.Some? <==> formErrors == map[] && !isNewUser
      ensures signInCall.None? ==>
                loginError == old(loginError) && onLoginCalls == old(onLoginCalls)
                && userStore.user == old(userStore.user) && userStore.isAuthenticated == old(userStore.isAuthenticated)
                && userStore.loading == old(userStore.loading)
      ensures formErrors != map[] ==> browser.storage == old(browser.storage) && browser.history == old(browser.history)
      ensures formErrors == map[] && isNewUser ==>
                browser.storage == old(browser.storage)["tempAuthData" := Json(TempAuthJson(FormatName(name), email, password))]
                && browser.history == old(browser.history) + ["/select-tank"]
      ensures signInCall.Some? ==> signInCall == Some(SignInWithPassword(NormalizeEmail(email), password))
      ensures signInCall.Some? && (signInAnswer.Err? || GetSession(sessionAnswer).Err?) ==>
                loginError == LoginErrorMessage(if signInAnswer.Err? then signInAnswer.thrown else GetSession(sessionAnswer).thrown)
                && onLoginCalls == old(onLoginCalls)
                && browser.history == old(browser.history) && userStore.State() == old(userStore.State())
      ensures signInCall.Some? && signInAnswer.Ok? && GetSession(sessionAnswer).Ok? ==>
                var s := GetSession(sessionAnswer).value;
                var stored := old(browser.storage)["userId" := Text(s.user.id)]["accessToken" := Text(s.accessToken)]
                                ["email" := Text(if s.user.email.Some? then s.user.email.value else "")];
                && loginError == None && onLoginCalls == old(onLoginCalls) + 1
                && userStore.State() ==
                     AfterRefresh(old(userStore.State()).(isAuthenticated := true, storage := stored), refreshSession, refreshProfile)
                && browser.history == old(browser.history) + ["/homepage"]
    {
      signInCall := None;
      var valid := ValidateForm();
      if !valid {
        return;
      }
      if isNewUser {
        ParkRegistration();
        return;
      }
      var call := SignIn(signInAnswer, sessionAnswer, refreshSession, refreshProfile);
      signInCall := Some(call);
    }

    /**
     * Root `handleSubmit`: a response with a token stores `user` and
     * `token`, calls `onLogin` and moves to `/homepage`; one without alerts
     * its message or 'Login failed'; a thrown error alerts its message or
     * 'An error occurred' (a thrown `null` alerts nothing, since reading its
     * `message` throws).  `requested` is whether `loginUser` was called.
     */
    method SubmitRoot(response: Result<LoginResponse>) returns (requested: bool)
      requires variant == Root
      modifies this`formErrors, this`onLoginCalls, browser
      ensures formErrors == FieldErrors(email, password, name, confirmPassword, isNewUser)
      ensures requested <==> formErrors == map[] && !isNewUser
      ensures formErrors != map[] ==> browser.storage == old(browser.storage) && browser.history == old(browser.history)
      ensures formErrors == map[] && isNewUser ==>
                browser.storage == old(browser.storage)["tempAuthData" := Json(TempAuthJson(FormatName(name), email, password))]
                && browser.history == old(browser.history) + ["/select-tank"]
      ensures !requested ==> browser.alerts == old(browser.alerts) && onLoginCalls == old(onLoginCalls)
      ensures requested && response.Ok? && response.value.token != "" ==>
                browser.storage == old(browser.storage)["user" := Json(response.value.user)]["token" := Text(response.value.token)]
                && browser.history == old(browser.history) + ["/homepage"]
                && browser.alerts == old(browser.alerts) && onLoginCalls == old(onLoginCalls) + 1
      ensures requested && response.Ok? && response.value.token == "" ==>
                browser.alerts == old(browser.alerts) + [MessageOr(response.value.message, "Login failed")]
      ensures requested && response.Err? && response.thrown.ThrownValue? ==>
                browser.alerts == old(browser.alerts) + [MessageOr(response.thrown.message, "An error occurred")]
      ensures requested && response.Err? && response.thrown.ThrownNoMessage? ==>
                browser.alerts == old(browser.alerts) + ["An error occurred"]
      ensures requested && response.Err? && response.thrown.ThrownNull? ==> browser.alerts == old(browser.alerts)
      ensures requested && !(response.Ok? && response.value.token != "") ==>
                browser.storage == old(browser.storage) && browser.history == old(browser.history)
                && onLoginCalls == old(onLoginCalls)
    {
      requested := false;
      var valid := ValidateForm();
      if !valid {
        return;
      }
      if isNewUser {
        ParkRegistration();
        return;
      }
      requested := true;
      if response.Err? {
        if response.thrown.ThrownValue? {
          browser.Alert(MessageOr(response.thrown.message, "An error occurred"));
        } else if response.thrown.ThrownNoMessage? {
          browser.Alert("An error occurred");
        }
        return;
      }
      var r := response.value;
      if r.token != "" {
        browser.SetItem("user", Json(r.user));
        browser.SetItem("token", Text(r.token));
        onLoginCalls := onLoginCalls + 1;
        browser.Navigate("/homepage");
      } else {
        browser.Alert(MessageOr(r.message, "Login failed"));
      }
    }

    /**
     * Backend: the effect on the router state.  Arriving from tank
     * selection forces register mode, prefills a given email and drops
     * `tempAuthData`.
     */
    method ArriveWith(state: LoginState)
      requires variant == Backend
      modifies this`isNewUser, this`email, browser
      ensures isNewUser == (old(isNewUser) || state.fromTankSelection)
      ensures email == (if state.fromTankSelection && state.prefilledEmail != "" then state.prefilledEmail else old(email))
      ensures browser.storage == if state.fromTankSelection then old(browser.storage) - {"tempAuthData"} else old(browser.storage)
      ensures browser.history == old(browser.history) && browser.alerts == old(browser.alerts)
    {
      if state.fromTankSelection {
        isNewUser := true;
        if state.prefilledEmail != "" {
          email := state.prefilledEmail;
        }
        browser.RemoveItem("tempAuthData");
      }
    }

    /** "Sign in instead" / "Create an account": flip the mode and clear the secrets and marks. */
    method ToggleMode()
      modifies this`isNewUser, this`password, this`confirmPassword, this`formErrors, this`touchedFields
      ensures isNewUser == !old(isNewUser)
      ensures password == "" && confirmPassword == ""
      ensures formErrors == map[] && touchedFields == map[]
    {
      isNewUser := !isNewUser;
      password, confirmPassword := "", "";
      formErrors, touchedFields := map[], map[];
    }
  }

  /**
   * "Sign in instead" on the tank selection page, then the login page's
   * effect on the state it sends: without `fromTankSelection` the effect
   * does nothing, so the conflicting email is not filled in and the mode
   * stays as it was.
   */
  method SignInInsteadThenArrive(page: TankSelectionPage, form: LoginForm) returns (state: LoginState)
    requires page.variant == Backend && page.emailConflict.accountExists && form.variant == Backend
    modifies page.browser, form`isNewUser, form`email, form.browser
    ensures state.prefilledEmail == page.emailConflict.email && !state.fromTankSelection
    ensures form.email == old(form.email) && form.isNewUser == old(form.isNewUser)
    ensures form.browser.storage == old(form.browser.storage)
  {
    state := page.SignInInstead();
    form.ArriveWith(state);
  }

  /** After a mode toggle every field has the base style, and the form cannot be submitted. */
  method ToggleClearsForm(form: LoginForm, field: string, value: string) returns (style: InputStyle, valid: bool)
    modifies form
    ensures style == BaseStyle
    ensures !valid && "password" in form.formErrors && form.formErrors["password"] == "Password is required"
  {
    form.ToggleMode();
    style := InputStyleOf(form.formErrors, form.touchedFields, field, value);
    valid := form.ValidateForm();
    FieldErrorsSpec(form.email, form.password, form.name, form.confirmPassword, form.isNewUser);
  }
}

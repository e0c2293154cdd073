/**
 * The identity-provider helpers of vermi-backend/src/utils/authUtils.ts:
 * `signUpUser`, `signInUser`, `getSession` and the registration sequence
 * `registerUserAndAssignTanks` (sign up, sign in, insert the `users` row,
 * insert the `user_tanks` rows).  Each awaited call of the hosted auth and
 * database service is an oracle: the method is handed its answer and
 * reports, in `calls`, the requests it issued in order.
 */
module Auth {
  import opened Base

  datatype AuthUser = AuthUser(id: string, email: Option<string>)

  datatype AuthSession = AuthSession(accessToken: string, user: AuthUser)

  /** `data` of `signInWithPassword`: the user and, when one was issued, the session. */
  datatype SignInData = SignInData(user: AuthUser, session: Option<AuthSession>)

  /** A row of the `users` table as the registration inserts it. */
  datatype UserRow = UserRow(authUid: string, username: string, email: string, locationId: string)

  /** A row of the `user_tanks` join table. */
  datatype UserTankRow = UserTankRow(userId: int, tankId: string)

  /** A request sent to the auth and database service. */
  datatype AuthCall =
    /** `redirectPath` is the path of `emailRedirectTo`, which the page origin prefixes. */
    | SignUp(email: string, password: string, name: string, redirectPath: Option<string>)
    | SignInWithPassword(email: string, password: string)
    | InsertUser(row: UserRow)
    | InsertUserTanks(rows: seq<UserTankRow>)

  datatype RegisterOptions = RegisterOptions(
    name: string, email: string, password: string, locationId: string, selectedTanks: seq<string>)

  datatype Registered = Registered(session: AuthSession, userId: int)

  /** `email.trim().toLowerCase()` */
  function NormalizeEmail(email: string): string {
    Lower(Trim(email))
  }

  /** A normalised address has no upper-case ASCII letter and no surrounding whitespace. */
  lemma NormalizedEmailShape(email: string)
    ensures forall i :: 0 <= i < |NormalizeEmail(email)| ==> !('A' <= NormalizeEmail(email)[i] <= 'Z')
    ensures NormalizeEmail(email) != "" ==>
              !IsSpace(NormalizeEmail(email)[0]) && !IsSpace(NormalizeEmail(email)[|NormalizeEmail(email)| - 1])
  {
    var t := Trim(email);
    if t != "" {
      CaseMappingKeepsSpace(t[0]);
      CaseMappingKeepsSpace(t[|t| - 1]);
    }
  }

  /** Normalising twice is normalising once. */
  lemma NormalizeEmailIdempotent(email: string)
    ensures NormalizeEmail(NormalizeEmail(email)) == NormalizeEmail(email)
  {
    var n := NormalizeEmail(email);
    NormalizedEmailShape(email);
    TrimNoOp(n);
    assert Lower(n) == n;
  }

  /** `signUpUser`: the sign-up request carries the display name as metadata. */
  method SignUpUser(email: string, password: string, name: string, answer: Result<()>)
    returns (r: Result<()>, call: AuthCall)
    ensures call == SignUp(email, password, name, None)
    ensures r == answer
  {
    call := SignUp(email, password, name, None);
    r := answer;
  }

  /** `signInUser`: the address is trimmed and lower-cased, the password sent unchanged. */
  method SignInUser(email: string, password: string, answer: Result<SignInData>)
    returns (r: Result<SignInData>, call: AuthCall)
    ensures call == SignInWithPassword(NormalizeEmail(email), password)
    ensures r == answer
  {
    call := SignInWithPassword(NormalizeEmail(email), password);
    r := answer;
  }

  /** `getSession`: an error or a missing session becomes `Error('Session not available')`. */
  function GetSession(answer: Result<Option<AuthSession>>): (r: Result<AuthSession>)
    ensures r.Ok? <==> answer.Ok? && answer.value.Some?
    ensures r.Ok? ==> r.value == answer.value.value
    ensures r.Err? ==> r.thrown == ThrownValue(true, "Session not available")
  {
    if answer.Err? || answer.value.None? then Err(ThrownValue(true, "Session not available"))
    else Ok(answer.value.value)
  }

  /** The `message` of a thrown value, `""` when it has none. */
  function MessageOf(t: Thrown): string {
    if t.ThrownValue? then t.message else ""
  }

  /** `selectedTanks.map(tankId => ({ user_id: userId, tank_id: tankId }))` */
  function TankRows(userId: int, tanks: seq<string>): (rows: seq<UserTankRow>)
    ensures |rows| == |tanks|
    ensures forall i :: 0 <= i < |rows| ==> rows[i].userId == userId && rows[i].tankId == tanks[i]
  {
    if tanks == [] then [] else [UserTankRow(userId, tanks[0])] + TankRows(userId, tanks[1..])
  }

  /**
   * `registerUserAndAssignTanks`.  The four requests go out strictly in the
   * order sign-up, sign-in, `users` insert, `user_tanks` insert; the first
   * failure throws and nothing after it is sent.  An insert of the `users`
   * row that reports neither an error nor a row throws `null`.
   */
  method RegisterUserAndAssignTanks(
    opts: RegisterOptions,
    signUpAnswer: Result<()>,
    signInAnswer: Result<SignInData>,
    insertUserAnswer: Result<Option<int>>,
    insertTanksAnswer: Result<()>)
    returns (r: Result<Registered>, calls: seq<AuthCall>)
    // order and abort points
    ensures 1 <= |calls| <= 4
    ensures calls[0] == SignUp(opts.email, opts.password, opts.name, Some("/homepage"))
    ensures |calls| == 1 <==> signUpAnswer.Err?
    ensures |calls| >= 2 ==> calls[1] == SignInWithPassword(opts.email, opts.password)
    ensures |calls| >= 3 <==> |calls| >= 2 && signInAnswer.Ok? && signInAnswer.value.session.Some?
    ensures |calls| >= 3 ==>
              calls[2] == InsertUser(UserRow(signInAnswer.value.user.id, opts.name, opts.email, opts.locationId))
    ensures |calls| == 4 <==> |calls| >= 3 && insertUserAnswer.Ok? && insertUserAnswer.value.Some? && opts.selectedTanks != []
    ensures |calls| == 4 ==> calls[3] == InsertUserTanks(TankRows(insertUserAnswer.value.value, opts.selectedTanks))
    // what is thrown
    ensures signUpAnswer.Err? ==> r == Err(signUpAnswer.thrown)
    ensures |calls| == 2 ==>
              r == Err(ThrownValue(true, MessageOr(if signInAnswer.Err? then MessageOf(signInAnswer.thrown) else "", "Sign-in failed")))
    ensures |calls| >= 3 && insertUserAnswer.Err? ==> r == Err(insertUserAnswer.thrown)
    ensures |calls| >= 3 && insertUserAnswer == Ok(None) ==> r == Err(ThrownNull)
    ensures |calls| == 4 && insertTanksAnswer.Err? ==> r == Err(insertTanksAnswer.thrown)
    // success
    ensures r.Ok? <==> |calls| >= 3 && insertUserAnswer.Ok? && insertUserAnswer.value.Some?
                       && (opts.selectedTanks == [] || insertTanksAnswer.Ok?)
    ensures r.Ok? ==> r.value == Registered(signInAnswer.value.session.value, insertUserAnswer.value.value)
    ensures r.Ok? && |calls| == 4 ==> forall row :: row in calls[3].rows ==> row.userId == r.value.userId
  {
    calls := [SignUp(opts.email, opts.password, opts.name, Some("/homepage"))];
    if signUpAnswer.Err? {
      r := Err(signUpAnswer.thrown);
      return;
    }

    calls := calls + [SignInWithPassword(opts.email, opts.password)];
    if signInAnswer.Err? || signInAnswer.value.session.None? {
      var message := if signInAnswer.Err? then MessageOf(signInAnswer.thrown) else "";
      r := Err(ThrownValue(true, MessageOr(message, "Sign-in failed")));
      return;
    }
    var signIn := signInAnswer.value;
    var authUid := signIn.user.id;

    calls := calls + [InsertUser(UserRow(authUid, opts.name, opts.email, opts.locationId))];
    if insertUserAnswer.Err? {
      r := Err(insertUserAnswer.thrown);
      return;
    }
    if insertUserAnswer.value.None? {
      r := Err(ThrownNull);
      return;
    }
    var userId := insertUserAnswer.value.value;

    if |opts.selectedTanks| > 0 {
      calls := calls + [InsertUserTanks(TankRows(userId, opts.selectedTanks))];
      if insertTanksAnswer.Err? {
        r := Err(insertTanksAnswer.thrown);
        return;
      }
    }

    r := Ok(Registered(signIn.session.value, userId));
  }
}

/**
 * The REST handlers of vermi-backend/controllers/authController.js:
 * `registerUser` and `loginUser`.  Each awaited step (the `users` queries,
 * bcrypt hashing and comparison, JWT signing) is an oracle whose answer is
 * a parameter; each handler returns the response it sends and the queries
 * it issued, in order.  Body fields are strings, `""` standing for a field
 * that is absent or empty (both are falsy).
 */
module AuthController {
  import opened Base
  import opened WebStorage

  datatype RegisterBody = RegisterBody(name: string, email: string, password: string, location: string, tankId: string)

  datatype LoginBody = LoginBody(email: string, password: string)

  /** A `users` row without its password hash, as `RETURNING` or the login `SELECT` give it. */
  datatype Account = Account(
    userId: int, username: string, email: string, location: Option<string>, tankId: Option<string>, createdAt: string)

  /** A row of the login `SELECT`, which also reads `password_hash`. */
  datatype LoginRow = LoginRow(account: Account, passwordHash: string)

  /** What a handler asked the database, bcrypt or the JWT library for. */
  datatype Request =
    | FindByEmail(email: string)
    | Hash(password: string)
    | InsertAccount(username: string, email: string, passwordHash: string, location: Option<string>, tankId: Option<string>)
    | Compare(password: string, passwordHash: string)
    | SignToken(email: string)

  datatype Body =
    | Rejected(message: string, field: string)
    | SignedIn(user: map<string, Scalar>, token: string)
    /** The 500 body; `error` is the thrown message only in development. */
    | Failed(message: string, error: Option<string>)

  /** `res.status(code).json(body)`, or nothing sent (the `catch` itself threw). */
  datatype Response = Reply(status: int, body: Body) | NoReply

  /** `value || null` */
  function OrNull(value: string): (r: Option<string>)
    ensures r.None? <==> value == ""
  {
    if value == "" then None else Some(value)
  }

  function Nullable(v: Option<string>): Scalar {
    if v.Some? then Str(v.value) else Null
  }

  /** The `user` object of both success responses. */
  function PublicUser(a: Account): map<string, Scalar> {
    map["id" := Num(a.userId), "name" := Str(a.username), "email" := Str(a.email),
        "location" := Nullable(a.location), "tank_id" := Nullable(a.tankId), "created_at" := Str(a.createdAt)]
  }

  /** The user object has exactly the six public fields; the hash is never among them. */
  lemma PublicUserFields(a: Account)
    ensures PublicUser(a).Keys == {"id", "name", "email", "location", "tank_id", "created_at"}
    ensures "password_hash" !in PublicUser(a)
    ensures PublicUser(a)["id"] == Num(a.userId) && PublicUser(a)["email"] == Str(a.email)
  {
  }

  /**
   * The `catch` block: 500 with the handler's message; a thrown `null`
   * sends nothing in development, and an `error` key that is `undefined`
   * (outside development, or a thrown value without `message`) is dropped.
   */
  function FailureResponse(message: string, thrown: Thrown, development: bool): (r: Response)
    ensures r.NoReply? <==> development && thrown.ThrownNull?
    ensures r.Reply? ==> r.status == 500 && r.body.Failed? && r.body.message == message
    ensures r.Reply? ==> (r.body.error.Some? <==> development && thrown.ThrownValue?)
    ensures r.Reply? && r.body.error.Some? ==> r.body.error.value == thrown.message
  {
    if !development then Reply(500, Failed(message, None))
    else if thrown.ThrownNull? then NoReply
    else if thrown.ThrownNoMessage? then Reply(500, Failed(message, None))
    else Reply(500, Failed(message, Some(thrown.message)))
  }

  /** The field named by the missing-field check: the first of name, email, password that is empty. */
  function FirstMissing(body: RegisterBody): string {
    if body.name == "" then "name" else if body.email == "" then "email" else "password"
  }

  /**
   * `registerUser`.  The duplicate check runs before the field check, so
   * even a request without an email queries the table first.
   */
  method RegisterUser(body: RegisterBody, development: bool,
                      existing: Result<nat>, hashed: Result<string>, inserted: Result<Account>, token: Result<string>)
    returns (response: Response, requests: seq<Request>)
    ensures |requests| >= 1 && requests[0] == FindByEmail(body.email)
    ensures existing.Err? ==> requests == [FindByEmail(body.email)]
                              && response == FailureResponse("Registration failed", existing.thrown, development)
    ensures existing.Ok? && existing.value > 0 ==>
              requests == [FindByEmail(body.email)]
              && response == Reply(400, Rejected("User already exists. Try logging in instead.", "email"))
    ensures existing == Ok(0) && (body.name == "" || body.email == "" || body.password == "") ==>
              requests == [FindByEmail(body.email)]
              && response == Reply(400, Rejected("Name, email, and password are required", FirstMissing(body)))
    ensures |requests| >= 2 <==> existing == Ok(0) && body.name != "" && body.email != "" && body.password != ""
    ensures |requests| >= 2 ==> requests[1] == Hash(body.password)
    ensures |requests| >= 2 && hashed.Err? ==>
              |requests| == 2 && response == FailureResponse("Registration failed", hashed.thrown, development)
    ensures |requests| >= 3 <==> |requests| >= 2 && hashed.Ok?
    ensures |requests| >= 3 ==>
              requests[2] == InsertAccount(body.name, body.email, hashed.value, OrNull(body.location), OrNull(body.tankId))
    ensures |requests| >= 3 && inserted.Err? ==>
              |requests| == 3 && response == FailureResponse("Registration failed", inserted.thrown, development)
    ensures |requests| == 4 <==> |requests| >= 3 && inserted.Ok?
    ensures |requests| == 4 ==> requests[3] == SignToken(inserted.value.email)
    ensures |requests| == 4 && token.Err? ==> response == FailureResponse("Registration failed", token.thrown, development)
    ensures |requests| == 4 && token.Ok? ==> response == Reply(201, SignedIn(PublicUser(inserted.value), token.value))
    ensures response.Reply? && response.status == 201 <==> |requests| == 4 && token.Ok?
  {
    requests := [FindByEmail(body.email)];
    if existing.Err? {
      response := FailureResponse("Registration failed", existing.thrown, development);
      return;
    }
    if existing.value > 0 {
      response := Reply(400, Rejected("User already exists. Try logging in instead.", "email"));
      return;
    }
    if body.name == "" || body.email == "" || body.password == "" {
      var field := if body.name == "" then "name" else if body.email == "" then "email" else "password";
      response := Reply(400, Rejected("Name, email, and password are required", field));
      return;
    }
    requests := requests + [Hash(body.password)];
    if hashed.Err? {
      response := FailureResponse("Registration failed", hashed.thrown, development);
      return;
    }
    requests := requests + [InsertAccount(body.name, body.email, hashed.value, OrNull(body.location), OrNull(body.tankId))];
    if inserted.Err? {
      response := FailureResponse("Registration failed", inserted.thrown, development);
      return;
    }
    var row := inserted.value;
    requests := requests + [SignToken(row.email)];
    if token.Err? {
      response := FailureResponse("Registration failed", token.thrown, development);
      return;
    }
    response := Reply(201, SignedIn(PublicUser(row), token.value));
  }

  /**
   * `loginUser`.  Missing input is rejected without a query; an unknown
   * email and a wrong password get the same message and differ only in
   * `field`.
   */
  method LoginUser(body: LoginBody, development: bool,
                   found: Result<seq<LoginRow>>, matches: Result<bool>, token: Result<string>)
    returns (response: Response, requests: seq<Request>)
    ensures body.email == "" || body.password == "" ==>
              requests == [] && response == Reply(400, Rejected("Email and password are required",
                                                               if body.email == "" then "email" else "password"))
    ensures body.email != "" && body.password != "" ==> |requests| >= 1 && requests[0] == FindByEmail(body.email)
    ensures |requests| >= 1 && found.Err? ==>
              |requests| == 1 && response == FailureResponse("Login failed", found.thrown, development)
    ensures |requests| >= 1 && found == Ok([]) ==>
              |requests| == 1 && response == Reply(401, Rejected("Invalid credentials", "email"))
    ensures |requests| >= 2 <==> |requests| >= 1 && found.Ok? && found.value != []
    ensures |requests| >= 2 ==> requests[1] == Compare(body.password, found.value[0].passwordHash)
    ensures |requests| >= 2 && matches.Err? ==>
              |requests| == 2 && response == FailureResponse("Login failed", matches.thrown, development)
    ensures |requests| >= 2 && matches == Ok(false) ==>
              |requests| == 2 && response == Reply(401, Rejected("Invalid credentials", "password"))
    ensures |requests| == 3 <==> |requests| >= 2 && matches == Ok(true)
    ensures |requests| == 3 ==> requests[2] == SignToken(found.value[0].account.email)
    ensures |requests| == 3 && token.Err? ==> response == FailureResponse("Login failed", token.thrown, development)
    ensures |requests| == 3 && token.Ok? ==>
              response == Reply(200, SignedIn(PublicUser(found.value[0].account), token.value))
    ensures response.Reply? && response.status == 200 <==> |requests| == 3 && token.Ok?
  {
    requests := [];
    if body.email == "" || body.password == "" {
      response := Reply(400, Rejected("Email and password are required", if body.email == "" then "email" else "password"));
      return;
    }
    requests := [FindByEmail(body.email)];
    if found.Err? {
      response := FailureResponse("Login failed", found.thrown, development);
      return;
    }
    if |found.value| == 0 {
      response := Reply(401, Rejected("Invalid credentials", "email"));
      return;
    }
    var row := found.value[0];
    requests := requests + [Compare(body.password, row.passwordHash)];
    if matches.Err? {
      response := FailureResponse("Login failed", matches.thrown, development);
      return;
    }
    if !matches.value {
      response := Reply(401, Rejected("Invalid credentials", "password"));
      return;
    }
    requests := requests + [SignToken(row.account.email)];
    if token.Err? {
      response := FailureResponse("Login failed", token.thrown, development);
      return;
    }
    // `{password_hash: _, ...userData}`: only the account part reaches the reply
    response := Reply(200, SignedIn(PublicUser(row.account), token.value));
  }
}

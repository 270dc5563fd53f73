/**
 * Authentication routes (backend/auth.py): the bearer-token guard that wraps every
 * protected route, registration with its ordered field checks and normalisation,
 * and login with its uniform answer for an unknown email and a wrong password.
 * Token decoding, password hashing and checking are library calls the model takes
 * as parameters; the users table is a sequence of `User` objects.
 */
module Auth {
  import opened Wrappers
  import opened Text
  import opened Http
  import Models

  // ---------------------------------------------------------------- token guard

  const BearerPrefix: string := "Bearer "

  /** Position of the first space in `s`, if any. */
  function IndexOfSpace(s: string): (r: Option<nat>)
    ensures r == None <==> forall i :: 0 <= i < |s| ==> s[i] != ' '
    ensures r != None ==> r.value < |s| && s[r.value] == ' '
    ensures r != None ==> forall i :: 0 <= i < r.value ==> s[i] != ' '
  {
    if s == [] then None
    else if s[0] == ' ' then Some(0)
    else
      match IndexOfSpace(s[1..])
      case None => None
      case Some(k) => Some(k + 1)
  }

  /** `s.split(" ", 1)[1]`: everything after the first space; None where Python raises
      an IndexError because there is no space. */
  function AfterFirstSpace(s: string): (r: Option<string>)
    ensures r == None <==> forall i :: 0 <= i < |s| ==> s[i] != ' '
  {
    match IndexOfSpace(s)
    case None => None
    case Some(k) => Some(s[k + 1..])
  }

  /** For a header that passed the prefix test, the token is the header minus "Bearer ". */
  lemma BearerTokenIsRest(header: string)
    requires StartsWith(header, BearerPrefix)
    ensures AfterFirstSpace(header) == Some(header[|BearerPrefix|..])
  {
    assert header[..7] == BearerPrefix;
    assert header[6] == ' ';
    forall i | 0 <= i < 6 ensures header[i] != ' ' {
      assert header[i] == BearerPrefix[i];
    }
  }

  /** Round trip: the token put after "Bearer " is the token the guard extracts. */
  lemma BearerRoundTrip(token: string)
    ensures AfterFirstSpace(BearerPrefix + token) == Some(token)
  {
    BearerTokenIsRest(BearerPrefix + token);
    assert (BearerPrefix + token)[|BearerPrefix|..] == token;
  }

  /** What the guard hands to a protected route as `current_user`. */
  datatype Principal = Principal(id: int, role: string)

  /**
   * `token_required`. `decode` is `decode_token`: the claims' `user_id` (None when the
   * claim is absent) or the library's error text; `lookup` is `User.query.get`.
   * The wrapped handler is reached only with a well-formed header, a token that
   * decodes and a user that exists; every other request is answered 401.
   */
  function TokenRequired<T>(header: string, decode: string -> Result<Option<int>, string>,
                            lookup: int -> Option<Principal>, handler: Principal -> Response<T>): (r: Response<T>)
    ensures !StartsWith(header, BearerPrefix) ==> r == Error(Unauthorized, "Authorization header required")
    ensures StartsWith(header, BearerPrefix) && decode(header[7..]).Failure? ==>
              r == Error(Unauthorized, decode(header[7..]).error)
    ensures StartsWith(header, BearerPrefix) && decode(header[7..]).Success? ==>
              var uid := decode(header[7..]).value;
              (uid == None || lookup(uid.value) == None ==> r == Error(Unauthorized, "User not found"))
              && (uid != None && lookup(uid.value) != None ==> r == handler(lookup(uid.value).value))
  {
    if !StartsWith(header, BearerPrefix) then Error(Unauthorized, "Authorization header required")
    else
      BearerTokenIsRest(header);
      var token := AfterFirstSpace(header).value;
      match decode(token)
      case Failure(e) => Error(Unauthorized, e)
      case Success(uid) =>
        if uid == None || lookup(uid.value) == None then Error(Unauthorized, "User not found")
        else handler(lookup(uid.value).value)
  }

  /** A request without the "Bearer " prefix never reaches its handler: the answer is
      the same whatever the handler would have done. */
  lemma NoBearerNoHandler<T>(header: string, decode: string -> Result<Option<int>, string>,
                             lookup: int -> Option<Principal>, h1: Principal -> Response<T>,
                             h2: Principal -> Response<T>)
    requires !StartsWith(header, BearerPrefix)
    ensures TokenRequired(header, decode, lookup, h1) == TokenRequired(header, decode, lookup, h2)
    ensures TokenRequired(header, decode, lookup, h1).Error?
  {
  }

  // ---------------------------------------------------------------- register

  /** The fields `register` demands, in the order it checks them. */
  const RequiredFields: seq<string> := ["email", "password", "full_name", "phone", "role"]

  /** `r in data and data[r]`: the key is there and its value is not empty. */
  predicate Present(data: map<string, string>, field: string) {
    field in data && data[field] != ""
  }

  /** Index of the first field that is absent or empty; |fields| when all are present. */
  function FirstMissing(data: map<string, string>, fields: seq<string>): (k: nat)
    ensures k <= |fields|
    ensures forall j :: 0 <= j < k ==> Present(data, fields[j])
    ensures k < |fields| ==> !Present(data, fields[k])
  {
    if fields == [] then 0
    else if !Present(data, fields[0]) then 0
    else 1 + FirstMissing(data, fields[1..])
  }

  /** Every required field is present and not empty. */
  predicate AllRequiredPresent(data: map<string, string>) {
    Present(data, "email") && Present(data, "password") && Present(data, "full_name")
    && Present(data, "phone") && Present(data, "role")
  }

  /** The loop over the required fields gets through exactly when all of them are there. */
  lemma FirstMissingComplete(data: map<string, string>)
    ensures FirstMissing(data, RequiredFields) == |RequiredFields| <==> AllRequiredPresent(data)
  {
    var k := FirstMissing(data, RequiredFields);
    if k == 5 {
      assert RequiredFields[0] == "email" && RequiredFields[1] == "password";
      assert RequiredFields[2] == "full_name" && RequiredFields[3] == "phone" && RequiredFields[4] == "role";
    }
  }

  /** `email.lower().strip()`. */
  function NormalizeEmail(email: string): string {
    Strip(Lower(email))
  }

  /** Normalising an already normalised email changes nothing, so the stored address
      is found again by the same normalisation at login. */
  lemma NormalizeEmailIdempotent(email: string)
    ensures NormalizeEmail(NormalizeEmail(email)) == NormalizeEmail(email)
  {
    var x := Lower(email);
    var y := Strip(x);
    var t := StripStart(x);
    assert IsLower(x) by { LowerIsLower(email); }
    var d := |x| - |t|;
    assert t == x[d..];
    assert IsLower(y) by {
      forall i | 0 <= i < |y| ensures !('A' <= y[i] <= 'Z') {
        assert y[i] == t[i];
        assert t[i] == x[d + i];
      }
    }
    LowerIsLower(y);
    StripIdempotent(x);
  }

  /** The user row `register` would insert, before hashing. */
  datatype Registration = Registration(email: string, password: string, role: string,
                                       fullName: string, phone: string)

  datatype Rejection = Rejection(status: int, message: string)

  /**
   * The checks of `register`, in the code's order: the first absent or empty field
   * among email, password, full_name, phone, role (400); then the normalised email
   * already registered (409); only then a password shorter than 6 characters (400).
   * An accepted registration stores the normalised email, the lower-cased role and the
   * stripped name and phone.
   */
  function RegisterCheck(data: map<string, string>, taken: set<string>): (r: Result<Registration, Rejection>)
    ensures FirstMissing(data, RequiredFields) < 5 ==>
              r == Failure(Rejection(BadRequest, RequiredFields[FirstMissing(data, RequiredFields)] + " is required"))
    ensures AllRequiredPresent(data) ==>
              (NormalizeEmail(data["email"]) in taken ==> r == Failure(Rejection(Conflict, "Email already registered")))
              && (NormalizeEmail(data["email"]) !in taken && |data["password"]| < 6 ==>
                    r == Failure(Rejection(BadRequest, "Password must be at least 6 characters")))
    ensures r.Success? <==> AllRequiredPresent(data)
                            && NormalizeEmail(data["email"]) !in taken && |data["password"]| >= 6
    ensures r.Success? ==> r.value == Registration(NormalizeEmail(data["email"]), data["password"],
                                                   Lower(data["role"]), Strip(data["full_name"]),
                                                   Strip(data["phone"]))
  {
    var k := FirstMissing(data, RequiredFields);
    FirstMissingComplete(data);
    if k < |RequiredFields| then Failure(Rejection(BadRequest, RequiredFields[k] + " is required"))
    else
      var email := NormalizeEmail(data["email"]);
      if email in taken then Failure(Rejection(Conflict, "Email already registered"))
      else if |data["password"]| < 6 then Failure(Rejection(BadRequest, "Password must be at least 6 characters"))
      else Success(Registration(email, data["password"], Lower(data["role"]),
                                Strip(data["full_name"]), Strip(data["phone"])))
  }

  /** A duplicate email is reported as such even when the password is also too short. */
  lemma DuplicateBeforeLength(data: map<string, string>, taken: set<string>)
    requires AllRequiredPresent(data)
    requires NormalizeEmail(data["email"]) in taken && |data["password"]| < 6
    ensures RegisterCheck(data, taken) == Failure(Rejection(Conflict, "Email already registered"))
  {
  }

  /** The emails already in the users table. */
  function EmailsOf(users: seq<Models.User>): (e: set<string>)
    reads users
    ensures forall i :: 0 <= i < |users| ==> users[i].email in e
    ensures forall x :: x in e ==> exists i :: 0 <= i < |users| && users[i].email == x
  {
    set u | u in users :: u.email
  }

  /**
   * `register`: walk the required fields, reject on the first missing one, then look
   * the normalised email up, check the password length, and insert the new user with
   * the hashed password. A failed commit is rolled back and answered 500.
   */
  method Register(data: map<string, string>, users: seq<Models.User>, hash: string -> string,
                  newId: int, now: Models.Timestamp, commitOk: bool)
    returns (resp: Response<Models.UserDict>, table: seq<Models.User>)
    ensures RegisterCheck(data, EmailsOf(users)).Failure? ==>
              table == users && resp == Error(RegisterCheck(data, EmailsOf(users)).error.status,
                                              RegisterCheck(data, EmailsOf(users)).error.message)
    ensures RegisterCheck(data, EmailsOf(users)).Success? && !commitOk ==>
              table == users && resp.Error? && resp.status == ServerError
    ensures RegisterCheck(data, EmailsOf(users)).Success? && commitOk ==>
              var reg := RegisterCheck(data, EmailsOf(users)).value;
              |table| == |users| + 1 && table[..|users|] == users && fresh(table[|users|])
              && table[|users|].email == reg.email && table[|users|].passwordHash == hash(reg.password)
              && table[|users|].role == reg.role && table[|users|].fullName == reg.fullName
              && table[|users|].phone == reg.phone
              && resp == Reply(201, table[|users|].ToDict())
  {
    table := users;
    var i := 0;
    while i < |RequiredFields|
      invariant 0 <= i <= |RequiredFields|
      invariant forall j :: 0 <= j < i ==> Present(data, RequiredFields[j])
    {
      var f := RequiredFields[i];
      if f !in data || data[f] == "" {
        assert FirstMissing(data, RequiredFields) == i;
        return Error(BadRequest, f + " is required"), users;
      }
      i := i + 1;
    }
    FirstMissingComplete(data);
    var email := NormalizeEmail(data["email"]);
    if FindByEmail(users, email) != None {
      return Error(Conflict, "Email already registered"), users;
    }
    if |data["password"]| < 6 {
      return Error(BadRequest, "Password must be at least 6 characters"), users;
    }
    var hashed := hash(data["password"]);
    var u := new Models.User(newId, email, hashed, Lower(data["role"]),
                             Strip(data["full_name"]), Strip(data["phone"]), now);
    if !commitOk {
      return Error(ServerError, "Database error"), users;
    }
    table := users + [u];
    resp := Reply(201, u.ToDict());
  }

  // ---------------------------------------------------------------- login

  /** `User.query.filter_by(email=email).first()`. */
  function FindByEmail(users: seq<Models.User>, email: string): (r: Option<Models.User>)
    reads users
    ensures r == None <==> email !in EmailsOf(users)
    ensures r != None ==> r.value in users && r.value.email == email
  {
    if users == [] then None
    else if users[0].email == email then Some(users[0])
    else
      assert EmailsOf(users) == {users[0].email} + EmailsOf(users[1..]);
      FindByEmail(users[1..], email)
  }

  /** The user found is the first one holding the email. */
  lemma {:induction false} FindByEmailFirst(users: seq<Models.User>, email: string, k: int)
    requires 0 <= k < |users| && users[k].email == email
    requires forall j :: 0 <= j < k ==> users[j].email != email
    ensures FindByEmail(users, email) == Some(users[k])
  {
    if k > 0 {
      assert users[0].email != email;
      forall j | 0 <= j < k - 1 ensures users[1..][j].email != email {
        assert users[1..][j] == users[j + 1];
      }
      FindByEmailFirst(users[1..], email, k - 1);
    }
  }

  datatype LoginBody = LoginBody(token: string, user: Models.UserDict)

  /** The user a login request authenticates as: the one holding the normalised email,
      provided the password checks against its stored hash. */
  function Authenticate(data: map<string, string>, users: seq<Models.User>,
                        checkPassword: (string, string) -> bool): (r: Option<Models.User>)
    reads users
    ensures r != None ==> "email" in data && "password" in data
    ensures r != None ==> r.value in users && r.value.email == NormalizeEmail(data["email"])
    ensures r != None ==> checkPassword(data["password"], r.value.passwordHash)
    ensures "email" in data && "password" in data ==>
              var found := FindByEmail(users, NormalizeEmail(data["email"]));
              found != None && checkPassword(data["password"], found.value.passwordHash) ==> r == found
  {
    if "email" !in data || "password" !in data then None
    else
      match FindByEmail(users, NormalizeEmail(data["email"]))
      case None => None
      case Some(u) => if checkPassword(data["password"], u.passwordHash) then Some(u) else None
  }

  /** Correct credentials log in: when `u` is the first user holding the normalised
      email and the password checks against its hash, the request authenticates as `u`. */
  lemma ValidCredentialsAuthenticate(data: map<string, string>, users: seq<Models.User>,
                                     checkPassword: (string, string) -> bool, k: int)
    requires "email" in data && "password" in data
    requires 0 <= k < |users| && users[k].email == NormalizeEmail(data["email"])
    requires forall j :: 0 <= j < k ==> users[j].email != NormalizeEmail(data["email"])
    requires checkPassword(data["password"], users[k].passwordHash)
    ensures Authenticate(data, users, checkPassword) == Some(users[k])
  {
    FindByEmailFirst(users, NormalizeEmail(data["email"]), k);
  }

  /**
   * `login`. Both keys must be present (400). An unknown email and a wrong password get
   * the same 401 "Invalid credentials", and neither touches any user. On success only the
   * matching user changes: its `last_login` becomes `now`.
   */
  method Login(data: map<string, string>, users: seq<Models.User>,
               checkPassword: (string, string) -> bool, createToken: (int, string) -> string,
               now: Models.Timestamp)
    returns (resp: Response<LoginBody>)
    modifies users
    ensures "email" !in data || "password" !in data ==>
              resp == Error(BadRequest, "Email and password are required") && unchanged(users)
    ensures "email" in data && "password" in data && old(Authenticate(data, users, checkPassword)) == None ==>
              resp == Error(Unauthorized, "Invalid credentials") && unchanged(users)
    ensures old(Authenticate(data, users, checkPassword)) != None ==>
              var u := old(Authenticate(data, users, checkPassword)).value;
              u.lastLogin == Some(now)
              && u.email == old(u.email) && u.passwordHash == old(u.passwordHash)
              && u.role == old(u.role) && u.fullName == old(u.fullName) && u.phone == old(u.phone)
              && u.isEmailVerified == old(u.isEmailVerified) && u.createdAt == old(u.createdAt)
              && unchanged(set v | v in users && v != u)
              && resp == Reply(200, LoginBody(createToken(u.id, u.role), u.ToDict()))
  {
    if "email" !in data || "password" !in data {
      return Error(BadRequest, "Email and password are required");
    }
    ghost var authenticated := Authenticate(data, users, checkPassword);
    var email := NormalizeEmail(data["email"]);
    var user := FindByEmail(users, email);
    if user == None {
      assert authenticated == None;
      return Error(Unauthorized, "Invalid credentials");
    }
    var u := user.value;
    if !checkPassword(data["password"], u.passwordHash) {
      assert authenticated == None;
      return Error(Unauthorized, "Invalid credentials");
    }
    assert authenticated == Some(u);
    u.lastLogin := Some(now);
    assert old(Authenticate(data, users, checkPassword)) == Some(u);
    var token := createToken(u.id, u.role);
    resp := Reply(200, LoginBody(token, u.ToDict()));
  }
}

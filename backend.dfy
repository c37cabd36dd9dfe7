/** The account handlers of the FastAPI backend (main.py): resolving the bearer token to a
    user, registration, sign-in, the two profile updates and the customer lookup by
    number. A raised `HTTPException` is an `Err` carrying its status and detail.

    Token signing and password hashing are not modelled: `jwt.decode` is given as its
    outcome (`Decoded`), an issued token as the claims it carries, and
    `verify_password` / `get_password_hash` as a parameter or a given hash. */
module Backend {
  import opened Common
  import opened Db

  datatype HttpError = HttpError(status: nat, detail: string)

  const CredentialsMessage := "Could not validate credentials"
  /** The detail `OAuth2PasswordBearer` answers with when no bearer token is presented. */
  const NotAuthenticatedMessage := "Not authenticated"
  const RegisteredMessage := "Username or email already registered"
  const IncorrectMessage := "Incorrect username or password"
  const NotFoundMessage := "User not found"
  const PasswordUpdatedMessage := "Password updated successfully"
  /** Lifetime of an issued access token, in minutes. */
  const TokenMinutes := 60

  /** The bearer token of a request as the handler sees it: absent (no `Authorization:
      Bearer` header), or what `jwt.decode` gave for it: a signature or format failure,
      or the payload with its optional `sub` claim. */
  datatype Decoded = NoBearer | InvalidToken | Payload(sub: Option<string>)

  /** The claims `create_access_token` signs. */
  datatype AccessToken = AccessToken(sub: string, expiresMinutes: nat)

  /** The `/auth/login` reply. */
  datatype TokenReply = TokenReply(accessToken: AccessToken, tokenType: string)

  /** The `UserCreate` body, with the fields the handlers read. */
  datatype UserCreate = UserCreate(
    username: string, email: string, password: string,
    fullName: Option<string>, bio: Option<string>, avatar: Option<string>)

  /** No two accounts share a username or an email, and no two share an id. */
  predicate UniqueAccounts(users: seq<User>) {
    forall i, j :: 0 <= i < j < |users| ==>
      users[i].username != users[j].username && users[i].email != users[j].email
      && users[i].id != users[j].id
  }

  // ----- get_current_user -----

  /** The position of the user a decoded token names, if the token is valid, has a
      subject and some account has that username. */
  function CurrentUserIndex(decoded: Decoded, users: seq<User>): (r: Option<nat>)
    ensures r.None? <==>
              !decoded.Payload? || decoded.sub.None?
              || forall i :: 0 <= i < |users| ==> users[i].username != decoded.sub.value
    ensures r.Some? ==> r.value < |users| && users[r.value].username == decoded.sub.value
  {
    match decoded
    case NoBearer => None
    case InvalidToken => None
    case Payload(sub) => if sub.None? then None else FirstIndex(users, HasUsername(sub.value))
  }

  /** `get_current_user` behind its `Depends(oauth2_scheme)`: 401 in every failing case,
      'Not authenticated' when no token was presented and 'Could not validate
      credentials' otherwise. */
  function GetCurrentUser(decoded: Decoded, users: seq<User>): (r: Result<User, HttpError>)
    ensures r.Err? <==> CurrentUserIndex(decoded, users).None?
    ensures decoded.NoBearer? ==> r == Err(HttpError(401, NotAuthenticatedMessage))
    ensures !decoded.NoBearer? && r.Err? ==> r.error == HttpError(401, CredentialsMessage)
    ensures r.Ok? ==> r.value in users && decoded.Payload? && decoded.sub == Some(r.value.username)
  {
    if decoded.NoBearer? then Err(HttpError(401, NotAuthenticatedMessage))
    else
      var i := CurrentUserIndex(decoded, users);
      if i.None? then Err(HttpError(401, CredentialsMessage)) else Ok(users[i.value])
  }

  // ----- register -----

  function Conflicts(req: UserCreate): User -> bool {
    (u: User) => u.username == req.username || u.email == req.email
  }

  /** The row `register` adds. */
  function NewUser(users: seq<User>, req: UserCreate, passwordHash: string, now: string): User {
    User(NextId(UserIds(users)), req.username, req.email, passwordHash,
         req.fullName, req.bio, req.avatar, now, None)
  }

  /** `register`: `passwordHash` is `get_password_hash(req.password)` and `now` the
      creation time the column default gives. */
  method Register(db: Database, req: UserCreate, passwordHash: string, now: string)
    returns (r: Result<User, HttpError>)
    modifies db`users
    ensures r.Err? <==>
              exists i :: 0 <= i < |old(db.users)| &&
                (old(db.users)[i].username == req.username || old(db.users)[i].email == req.email)
    ensures r.Err? ==> r.error == HttpError(400, RegisteredMessage) && db.users == old(db.users)
    ensures r.Ok? ==> r.value == NewUser(old(db.users), req, passwordHash, now)
                      && db.users == old(db.users) + [r.value]
    ensures UniqueAccounts(old(db.users)) ==> UniqueAccounts(db.users)
  {
    var existing := First(db.users, Conflicts(req));
    if existing.Some? {
      r := Err(HttpError(400, RegisteredMessage));
    } else {
      var user := NewUser(db.users, req, passwordHash, now);
      db.users := db.users + [user];
      r := Ok(user);
    }
  }

  // ----- login -----

  /** `login`: `verify` is `verify_password(plain, hash)`. */
  function Login(users: seq<User>, username: string, password: string,
                 verify: (string, string) -> bool): (r: Result<TokenReply, HttpError>)
    ensures var found := First(users, HasUsername(username));
            r.Ok? <==> found.Some? && verify(password, found.value.passwordHash)
    ensures r.Err? ==> r.error == HttpError(400, IncorrectMessage)
    ensures r.Ok? ==> r.value == TokenReply(AccessToken(username, TokenMinutes), "bearer")
  {
    var found := First(users, HasUsername(username));
    if found.None? || !verify(password, found.value.passwordHash) then
      Err(HttpError(400, IncorrectMessage))
    else
      Ok(TokenReply(AccessToken(found.value.username, TokenMinutes), "bearer"))
  }

  /** An unknown username and a wrong password are answered identically, so the reply
      does not reveal which accounts exist. */
  lemma LoginHidesWhichCheckFailed(users: seq<User>, known: string, unknown: string,
                                   password: string, verify: (string, string) -> bool)
    requires forall i :: 0 <= i < |users| ==> users[i].username != unknown
    requires First(users, HasUsername(known)).Some?
    requires !verify(password, First(users, HasUsername(known)).value.passwordHash)
    ensures Login(users, unknown, password, verify) == Login(users, known, password, verify)
  {
  }

  /** A token issued by `login`, once decoded, authenticates the very account that
      signed in. */
  lemma IssuedTokenAuthenticates(users: seq<User>, username: string, password: string,
                                 verify: (string, string) -> bool)
    requires Login(users, username, password, verify).Ok?
    ensures var t := Login(users, username, password, verify).value.accessToken;
            GetCurrentUser(Payload(Some(t.sub)), users) == Ok(First(users, HasUsername(username)).value)
  {
  }

  // ----- update_profile / update_password -----

  /** `update_profile`: only the full name, bio and avatar of the token's account are
      replaced; a token that does not resolve changes nothing. */
  method UpdateProfile(db: Database, decoded: Decoded, update: UserCreate)
    returns (r: Result<User, HttpError>)
    modifies db`users
    ensures var i := CurrentUserIndex(decoded, old(db.users));
            (i.None? ==> r == GetCurrentUser(decoded, old(db.users)) && r.Err? && r.error.status == 401
                         && db.users == old(db.users))
            && (i.Some? ==>
                  r.Ok? && db.users == old(db.users)[i.value := r.value]
                  && r.value == old(db.users)[i.value].(fullName := update.fullName, bio := update.bio, avatar := update.avatar))
  {
    var current := GetCurrentUser(decoded, db.users);
    if current.Err? {
      r := Err(current.error);
    } else {
      var i := CurrentUserIndex(decoded, db.users).value;
      var updated := db.users[i].(fullName := update.fullName, bio := update.bio, avatar := update.avatar);
      db.users := db.users[i := updated];
      r := Ok(updated);
    }
  }

  /** `update_password`: only the password hash of the token's account changes;
      `newHash` is `get_password_hash(password)`. */
  method UpdatePassword(db: Database, decoded: Decoded, newHash: string)
    returns (r: Result<string, HttpError>)
    modifies db`users
    ensures var i := CurrentUserIndex(decoded, old(db.users));
            (i.None? ==> r.Err? && r.error == GetCurrentUser(decoded, old(db.users)).error
                         && r.error.status == 401 && db.users == old(db.users))
            && (i.Some? ==>
                  r == Ok(PasswordUpdatedMessage)
                  && db.users == old(db.users)[i.value := old(db.users)[i.value].(passwordHash := newHash)])
  {
    var current := GetCurrentUser(decoded, db.users);
    if current.Err? {
      r := Err(current.error);
    } else {
      var i := CurrentUserIndex(decoded, db.users).value;
      db.users := db.users[i := db.users[i].(passwordHash := newHash)];
      r := Ok(PasswordUpdatedMessage);
    }
  }

  /** A profile update keeps the account's identity and credentials, so the same token
      still resolves to it and the same password still signs in. */
  lemma ProfileUpdateKeepsIdentity(user: User, update: UserCreate)
    ensures var u := user.(fullName := update.fullName, bio := update.bio, avatar := update.avatar);
            u.id == user.id && u.username == user.username && u.email == user.email
            && u.passwordHash == user.passwordHash && u.createdAt == user.createdAt
            && u.status == user.status
  {
  }

  // ----- get_user_by_number -----

  /** A history column as returned: `json.loads` of its text, or `[]` when it is empty. */
  datatype JsonList = EmptyList | Loaded(text: string)

  function HistoryColumn(column: string): (j: JsonList)
    ensures j == EmptyList <==> column == ""
    ensures j.Loaded? ==> j.text == column
  {
    if Truthy(column) then Loaded(column) else EmptyList
  }

  /** The JSON object `get_user_by_number` returns. */
  datatype UserRecord = UserRecord(
    name: string, number: string, email: string, status: string, region: string,
    segment: string, phase: string, createdAt: string,
    usageHistory: JsonList, paymentHistory: JsonList, alertHistory: JsonList, recentActivity: JsonList)

  /** `get_user_by_number`: the first record with that number, or 404. */
  function GetUserByNumber(analytics: seq<UserAnalytics>, number: string): (r: Result<UserRecord, HttpError>)
    ensures r.Err? <==> forall i :: 0 <= i < |analytics| ==> analytics[i].number != number
    ensures r.Err? ==> r.error == HttpError(404, NotFoundMessage)
    ensures r.Ok? ==>
              exists i :: 0 <= i < |analytics| && analytics[i].number == number
                && (forall j :: 0 <= j < i ==> analytics[j].number != number)
                && RecordOf(analytics[i]) == r.value
  {
    var row := First(analytics, HasNumber(number));
    if row.None? then Err(HttpError(404, NotFoundMessage)) else Ok(RecordOf(row.value))
  }

  /** The reply built from a row: every scalar field copied, every history column
      decoded or defaulted to `[]`. */
  function RecordOf(a: UserAnalytics): (u: UserRecord)
    ensures u.name == a.name && u.number == a.number && u.email == a.email
    ensures u.status == a.status && u.region == a.region && u.segment == a.segment
    ensures u.phase == a.phase && u.createdAt == a.createdAt
    ensures (u.usageHistory == EmptyList <==> a.usageHistory == "")
            && (u.paymentHistory == EmptyList <==> a.paymentHistory == "")
            && (u.alertHistory == EmptyList <==> a.alertHistory == "")
            && (u.recentActivity == EmptyList <==> a.recentActivity == "")
  {
    UserRecord(a.name, a.number, a.email, a.status, a.region, a.segment, a.phase, a.createdAt,
               HistoryColumn(a.usageHistory), HistoryColumn(a.paymentHistory),
               HistoryColumn(a.alertHistory), HistoryColumn(a.recentActivity))
  }
}

/** The account routes: register, login and verify. Password hashing and comparison are
    functions the model does not look into, and a token is the record of the claims it
    carries, not its signed encoding. */
module Auth {
  import opened Wrappers
  import opened Records

  datatype Role = Admin | User

  /** A stored account; `passwordHash` is what the user model keeps instead of the password. */
  datatype Account = Account(id: Id, username: string, email: string, passwordHash: string, role: Role)

  /** The `user` object the routes send back: no password and no hash. */
  datatype UserView = UserView(id: Id, username: string, email: string, role: Role)

  /** The payload `{ id, role }` that `jwt.sign` signs. */
  datatype Claims = Claims(id: Id, role: Role)

  /** Seven days, the `expiresIn: '7d'` of both routes that sign a token. */
  const TokenLifetime: nat := 7 * 24 * 60 * 60

  datatype Token = Token(claims: Claims, expiresIn: nat)

  datatype AuthReply = AuthReply(
    status: nat, success: bool, message: string, token: Option<Token>, user: Option<UserView>)

  function View(a: Account): (r: UserView)
    ensures r.id == a.id && r.username == a.username && r.email == a.email && r.role == a.role
  {
    UserView(a.id, a.username, a.email, a.role)
  }

  /** The token `jwt.sign({ id: user._id, role: user.role }, secret, { expiresIn: '7d' })`. */
  function TokenFor(a: Account): (r: Token)
    ensures r.claims.id == a.id && r.claims.role == a.role && r.expiresIn == 604800
  {
    Token(Claims(a.id, a.role), TokenLifetime)
  }

  /** The three lookups the account routes make: `findOne({ email })`, `findById(id)` and
      `findOne({ $or: [{ email }, { username }] })`. */
  datatype Query = ByEmail(email: string) | ById(id: Id) | EmailOrUsername(email: string, username: string)

  predicate Matches(a: Account, q: Query) {
    match q
    case ByEmail(email) => a.email == email
    case ById(id) => a.id == id
    case EmailOrUsername(email, username) => a.email == email || a.username == username
  }

  /** The store's lookup: the first account the query matches, or none exactly when no
      account matches. */
  function FindOne(users: seq<Account>, q: Query): (r: Option<Account>)
    ensures r.Some? ==> r.value in users && Matches(r.value, q)
    ensures r.None? <==> forall u :: u in users ==> !Matches(u, q)
  {
    if |users| == 0 then None
    else if Matches(users[0], q) then Some(users[0])
    else FindOne(users[1..], q)
  }

  const InvalidCredentials: AuthReply := AuthReply(401, false, "Invalid credentials", None, None)

  /** `POST /login`. `matches(candidate, hash)` is the user model's `comparePassword`;
      `storeFails` stands for a store error, which the catch turns into a 500. An unknown
      email and a wrong password get the same 401; a token is made only when the account is
      found and the password matches. */
  function Login(users: seq<Account>, matches: (string, string) -> bool,
                 email: string, password: string, storeFails: bool): (r: AuthReply)
    ensures storeFails ==> r == AuthReply(500, false, "Login failed", None, None)
    ensures !storeFails && FindOne(users, ByEmail(email)).None? ==> r == InvalidCredentials
    ensures (!storeFails && FindOne(users, ByEmail(email)).Some?
             && !matches(password, FindOne(users, ByEmail(email)).value.passwordHash)) ==> r == InvalidCredentials
    ensures r.token.Some? <==>
      (!storeFails && FindOne(users, ByEmail(email)).Some?
       && matches(password, FindOne(users, ByEmail(email)).value.passwordHash))
    ensures r.token.Some? ==>
      var u := FindOne(users, ByEmail(email)).value;
      r == AuthReply(200, true, "Login successful", Some(TokenFor(u)), Some(View(u)))
  {
    if storeFails then AuthReply(500, false, "Login failed", None, None)
    else
      match FindOne(users, ByEmail(email))
      case None => InvalidCredentials
      case Some(u) =>
        if !matches(password, u.passwordHash) then InvalidCredentials
        else AuthReply(200, true, "Login successful", Some(TokenFor(u)), Some(View(u)))
  }

  /** `GET /verify`, past the token check: the account named by the token's claims, without
      its password; `null` when the account is gone. */
  function Verify(users: seq<Account>, claims: Claims, storeFails: bool): (r: AuthReply)
    ensures storeFails ==> r == AuthReply(500, false, "Verification failed", None, None)
    ensures !storeFails ==> r.status == 200 && r.success && r.token.None?
    ensures !storeFails ==>
      (r.user.Some? <==> exists u :: u in users && u.id == claims.id)
    ensures r.user.Some? ==> exists u :: u in users && u.id == claims.id && r.user.value == View(u)
  {
    if storeFails then AuthReply(500, false, "Verification failed", None, None)
    else
      var found := FindOne(users, ById(claims.id));
      AuthReply(200, true, "", None, if found.Some? then Some(View(found.value)) else None)
  }

  predicate UniqueAccounts(users: seq<Account>) {
    forall i, j :: 0 <= i < j < |users| ==>
      users[i].id != users[j].id && users[i].email != users[j].email
      && users[i].username != users[j].username
  }

  /** The accounts collection. `hash` is the user model's password hashing on save. */
  class UserStore {
    var users: seq<Account>
    var nextId: Id
    const hash: string -> string

    ghost predicate Valid()
      reads this
    {
      && UniqueAccounts(users)
      && (forall u :: u in users ==> u.id < nextId)
    }

    constructor (hash: string -> string)
      ensures Valid() && users == [] && this.hash == hash
    {
      users := [];
      nextId := 0;
      this.hash := hash;
    }

    /** `POST /register`. A clash on the email or on the username is a 400 that stores
        nothing. Otherwise the account is built from the username, email and password alone,
        so its role is always `User`; `saveFails` stands for the user model rejecting it on
        save, which the catch turns into a 500. */
    method Register(username: string, email: string, password: string, saveFails: bool)
      returns (r: AuthReply)
      requires Valid()
      modifies this
      ensures Valid()
      ensures (exists u :: u in old(users) && (u.email == email || u.username == username)) ==>
        r == AuthReply(400, false, "User already exists", None, None)
        && users == old(users) && nextId == old(nextId)
      ensures (forall u :: u in old(users) ==> u.email != email && u.username != username) && saveFails ==>
        r == AuthReply(500, false, "Registration failed", None, None)
        && users == old(users) && nextId == old(nextId)
      ensures (forall u :: u in old(users) ==> u.email != email && u.username != username) && !saveFails ==>
        var a := Account(old(nextId), username, email, hash(password), User);
        && users == old(users) + [a] && nextId == old(nextId) + 1
        && r == AuthReply(201, true, "User registered successfully", Some(TokenFor(a)), Some(View(a)))
    {
      if FindOne(users, EmailOrUsername(email, username)).Some? {
        return AuthReply(400, false, "User already exists", None, None);
      }
      forall u | u in users ensures u.email != email && u.username != username {
        assert !Matches(u, EmailOrUsername(email, username));
      }
      if saveFails {
        return AuthReply(500, false, "Registration failed", None, None);
      }
      var a := Account(nextId, username, email, hash(password), User);
      users := users + [a];
      nextId := nextId + 1;
      r := AuthReply(201, true, "User registered successfully", Some(TokenFor(a)), Some(View(a)));
    }
  }

  /** An unknown email and a known email with a wrong password cannot be told apart. */
  lemma {:induction false} LoginFailuresAlike(users: seq<Account>, matches: (string, string) -> bool,
                                             unknown: string, known: Account, wrong: string, any: string)
    requires forall u :: u in users ==> u.email != unknown
    requires known in users && UniqueAccounts(users) && !matches(wrong, known.passwordHash)
    ensures Login(users, matches, unknown, any, false) == Login(users, matches, known.email, wrong, false)
  {
    FindUnique(users, known);
  }

  /** With unique emails, looking an account up by its email finds that account. */
  lemma {:induction false} FindUnique(users: seq<Account>, a: Account)
    requires a in users && UniqueAccounts(users)
    ensures FindOne(users, ByEmail(a.email)) == Some(a)
  {
    if users[0] != a {
      assert a in users[1..];
      assert UniqueAccounts(users[1..]) by {
        forall i, j | 0 <= i < j < |users[1..]|
          ensures users[1..][i].email != users[1..][j].email
        {
          assert users[1..][i] == users[i + 1] && users[1..][j] == users[j + 1];
        }
      }
      FindUnique(users[1..], a);
      var k :| 0 <= k < |users| && users[k] == a;
      assert users[0].email != a.email;
    }
  }

  /** Whoever has just registered can log in with the same email and password, when the
      comparison accepts a password against its own hash; the token carries the new id and
      the role `User`. */
  lemma {:induction false} LoginAfterRegister(users: seq<Account>, matches: (string, string) -> bool,
                                             a: Account, password: string, hash: string -> string)
    requires UniqueAccounts(users + [a]) && a.role == User && a.passwordHash == hash(password)
    requires matches(password, hash(password))
    ensures Login(users + [a], matches, a.email, password, false).status == 200
    ensures Login(users + [a], matches, a.email, password, false).token == Some(Token(Claims(a.id, User), TokenLifetime))
  {
    FindUnique(users + [a], a);
  }
}

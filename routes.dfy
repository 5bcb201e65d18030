/**
 * The decision logic of the signup and login routes of server/routes.ts, over the
 * in-memory storage; request parsing and the HTTP plumbing are outside the model.
 */
module Routes {
  import opened Wrappers
  import Storage
  import Webhook

  const UserExistsMessage: string := "User already exists with this email"
  const InvalidCredentialsMessage: string := "Invalid email or password"
  const DeactivatedMessage: string := "Account is deactivated"

  /** A user as the routes return it: every field but the password. */
  datatype PublicUser = PublicUser(id: string, email: string, fullName: string, isActive: bool, createdAt: int)

  /** `{ user }` on success, else an HTTP status and its message. */
  datatype AuthResponse = Accepted(user: PublicUser) | Rejected(status: nat, message: string)

  function WithoutPassword(u: Storage.User): PublicUser {
    PublicUser(u.id, u.email, u.fullName, u.isActive, u.createdAt)
  }

  /**
   * Login's checks in order: a known email, a matching password, an active account.
   * The first two failures give the same answer, so a caller cannot tell which one failed.
   */
  function LoginDecision(found: Option<Storage.User>, password: string): (r: AuthResponse)
    ensures r.Accepted? <==> found.Some? && Storage.Compare(password, found.value.password) && found.value.isActive
    ensures r.Accepted? ==> r.user == WithoutPassword(found.value)
    ensures r.Rejected? ==> r.status == 401
    ensures r == Rejected(401, DeactivatedMessage) <==>
            found.Some? && Storage.Compare(password, found.value.password) && !found.value.isActive
    ensures r.Rejected? && r.message != DeactivatedMessage ==> r.message == InvalidCredentialsMessage
  {
    if found.None? then Rejected(401, InvalidCredentialsMessage)
    else if !Storage.Compare(password, found.value.password) then Rejected(401, InvalidCredentialsMessage)
    else if !found.value.isActive then Rejected(401, DeactivatedMessage)
    else Accepted(WithoutPassword(found.value))
  }

  /** The login route over a user table. */
  function Login(users: seq<Storage.User>, email: string, password: string): AuthResponse {
    LoginDecision(Storage.FindByEmail(users, email), password)
  }

  /** The login route over the store. */
  function LoginWith(storage: Storage.MemStorage, email: string, password: string): AuthResponse
    reads storage
  {
    Login(storage.users, email, password)
  }

  /** The signup route: refuse a known email with 400, else create the user and return it without its password. */
  method Signup(storage: Storage.MemStorage, input: Storage.InsertUser, id: string, now: int) returns (r: AuthResponse)
    requires storage.Valid() && !Storage.HasId(storage.users, Storage.UserId, id)
    modifies storage
    ensures storage.Valid()
    ensures old(storage.GetUserByEmail(input.email)).Some? ==>
              r == Rejected(400, UserExistsMessage) && storage.users == old(storage.users)
    ensures old(storage.GetUserByEmail(input.email)).None? ==>
              r == Accepted(WithoutPassword(Storage.NewUser(input, id, now))) &&
              storage.users == old(storage.users) + [Storage.NewUser(input, id, now)]
    ensures storage.conversations == old(storage.conversations) && storage.messages == old(storage.messages)
  {
    var existing := storage.GetUserByEmail(input.email);
    if existing.Some? {
      return Rejected(400, UserExistsMessage);
    }
    var user := storage.CreateUser(input, id, now);
    r := Accepted(WithoutPassword(user));
  }

  /** Every email belongs to at most one user. */
  ghost predicate UniqueEmails(users: seq<Storage.User>) {
    forall i, j :: 0 <= i < j < |users| ==> users[i].email != users[j].email
  }

  /** Signing up keeps emails unique: the route only creates a user for an unknown email. */
  lemma SignupKeepsEmailsUnique(users: seq<Storage.User>, input: Storage.InsertUser, id: string, now: int)
    requires UniqueEmails(users)
    requires Storage.FindByEmail(users, input.email).None?
    ensures UniqueEmails(users + [Storage.NewUser(input, id, now)])
  {
  }

  lemma {:induction false} FindByEmailAppend(users: seq<Storage.User>, u: Storage.User)
    requires Storage.FindByEmail(users, u.email).None?
    ensures Storage.FindByEmail(users + [u], u.email) == Some(u)
    decreases |users|
  {
    if users != [] {
      assert (users + [u])[1..] == users[1..] + [u];
      FindByEmailAppend(users[1..], u);
    }
  }

  /** A successful signup is followed by a successful login with the same email and password. */
  lemma SignupThenLogin(users: seq<Storage.User>, input: Storage.InsertUser, id: string, now: int)
    requires Storage.FindByEmail(users, input.email).None?
    ensures Login(users + [Storage.NewUser(input, id, now)], input.email, input.password)
            == Accepted(WithoutPassword(Storage.NewUser(input, id, now)))
  {
    FindByEmailAppend(users, Storage.NewUser(input, id, now));
  }

  /** Any other password is refused for that user, with the same answer as an unknown email. */
  lemma WrongPasswordRefused(users: seq<Storage.User>, input: Storage.InsertUser, id: string, now: int, other: string)
    requires Storage.FindByEmail(users, input.email).None?
    requires other != input.password
    ensures Login(users + [Storage.NewUser(input, id, now)], input.email, other)
            == Rejected(401, InvalidCredentialsMessage)
            == Login(users, input.email, other)
  {
    FindByEmailAppend(users, Storage.NewUser(input, id, now));
    Storage.HashCompareRoundTrip(input.password, other, Storage.SaltRounds);
  }

  /**
   * The payload's `message_type` and the stored message's `messageType` apply the
   * same default, so the AI is told the type the transcript records.
   */
  lemma MessageTypeDefaultsAgree(input: Storage.InsertMessage, id: string, now: int)
    ensures Storage.NewMessage(input, id, now).messageType == Webhook.MessageTypeOrDefault(input.messageType)
  {
  }
}

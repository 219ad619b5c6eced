/**
 * The sign-up endpoint (app/api/auth/register/route.ts): required fields, email and
 * username uniqueness, and the user record it creates. Hashing the password and the
 * clock are inputs (`passwordHash`, `now`); inserting the record is `Store.Database.Register`.
 */
module RegisterRoute {
  import opened Wrappers
  import opened Json
  import opened Calendar
  import opened Ledger

  const MissingFields := "Nome de usuário, nome, sobrenome, email e senha são obrigatórios"
  const EmailTaken := "Este email já está cadastrado"
  const UsernameTaken := "Este nome de usuário já está em uso"
  const UserCreated := "Usuário criado com sucesso"

  datatype RegisterBody = RegisterBody(
    username: Field<string>,
    firstName: Field<string>,
    lastName: Field<string>,
    email: Field<string>,
    phone: Field<string>,
    password: Field<string>)

  /** `email`, `password`, `username`, `firstName` and `lastName` are all truthy; `phone` is optional. */
  predicate HasRequired(b: RegisterBody) {
    TruthyStr(b.email) && TruthyStr(b.password) && TruthyStr(b.username) &&
    TruthyStr(b.firstName) && TruthyStr(b.lastName)
  }

  /** `findUnique({ where: { email } })` finds a row. */
  predicate EmailInUse(users: seq<User>, email: string) {
    exists u :: u in users && u.email == email
  }

  /** `findUnique({ where: { username } })` finds a row. */
  predicate UsernameInUse(users: seq<User>, username: string) {
    exists u :: u in users && u.username == Some(username)
  }

  /** The checks before the insert, in the handler's order: required fields, then email, then username. */
  function RegisterGuard(users: seq<User>, b: RegisterBody): (g: Guard)
    ensures !HasRequired(b) ==> g == Stop(400, MissingFields)
    ensures HasRequired(b) && EmailInUse(users, b.email.v) ==> g == Stop(400, EmailTaken)
    ensures HasRequired(b) && !EmailInUse(users, b.email.v) && UsernameInUse(users, b.username.v) ==>
              g == Stop(400, UsernameTaken)
    ensures g == Pass <==> HasRequired(b) && !EmailInUse(users, b.email.v) && !UsernameInUse(users, b.username.v)
  {
    if !HasRequired(b) then Stop(400, MissingFields)
    else if EmailInUse(users, b.email.v) then Stop(400, EmailTaken)
    else if UsernameInUse(users, b.username.v) then Stop(400, UsernameTaken)
    else Pass
  }

  /** A taken email is reported even when the username is taken too: the email check runs first. */
  lemma EmailCheckedFirst(users: seq<User>, b: RegisterBody)
    requires HasRequired(b) && EmailInUse(users, b.email.v) && UsernameInUse(users, b.username.v)
    ensures RegisterGuard(users, b) == Stop(400, EmailTaken)
  {
  }

  /** The row `user.create` stores: the hash instead of the password, the full name, onboarding done. */
  function NewUser(id: string, b: RegisterBody, passwordHash: string, now: Date): (u: User)
    requires HasRequired(b)
    ensures u.id == id && u.email == b.email.v && u.username == Some(b.username.v)
    ensures u.password == Some(passwordHash)
    ensures u.firstName == Some(b.firstName.v) && u.lastName == Some(b.lastName.v)
    ensures u.name == Some(b.firstName.v + " " + b.lastName.v)
    ensures u.phone.Some? <==> TruthyStr(b.phone)
    ensures u.phone.Some? ==> u.phone.value == b.phone.v
    ensures u.emailVerified == Some(now) && u.onboardingCompleted
    ensures u.age.None? && u.address.None? && u.image.None?
  {
    User(id, b.email.v, Some(b.username.v), Some(passwordHash), Some(b.firstName.v + " " + b.lastName.v),
         Some(b.firstName.v), Some(b.lastName.v), None, OrNull(b.phone), None, None, Some(now), true)
  }

  /** The 201 reply: a message and only the new user's `id`, `email` and `name`. */
  datatype Created = Created(message: string, id: string, email: string, name: string)

  function CreatedReply(u: User): (r: Reply<Created>)
    ensures r.Success? && r.status == 201 && r.value.message == UserCreated
    ensures r.value.id == u.id && r.value.email == u.email && r.value.name == u.name.GetOr("")
  {
    Success(201, Created(UserCreated, u.id, u.email, u.name.GetOr("")))
  }

  /** The reply to a successful sign-up names the user as first name, a space, and last name. */
  lemma CreatedReplyShowsFullName(id: string, b: RegisterBody, passwordHash: string, now: Date)
    requires HasRequired(b)
    ensures var r := CreatedReply(NewUser(id, b, passwordHash, now));
      r.value.name == b.firstName.v + " " + b.lastName.v && r.value.email == b.email.v && r.value.id == id
  {
  }
}

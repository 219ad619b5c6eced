/**
 * The profile endpoint (app/api/user/profile/route.ts): `GET` returns a projection of the
 * session user's row; `PUT` writes the fields present in the body. Applying the update to
 * the user table is `Store.Database.UpdateProfile`.
 */
module ProfileRoute {
  import opened Wrappers
  import opened Json
  import opened Ledger

  const NotAuthenticated := "Não autenticado"
  const UserNotFound := "Usuário não encontrado"
  const UpdateFailed := "Erro ao atualizar usuário"

  /** The columns `GET` selects. */
  datatype ProfileView = ProfileView(
    id: string,
    name: Option<string>,
    email: string,
    image: Option<string>,
    firstName: Option<string>,
    lastName: Option<string>,
    age: Option<int>,
    phone: Option<string>,
    address: Option<string>)

  /** `select: { id, name, email, image, firstName, lastName, age, phone, address }`. */
  function Project(u: User): (v: ProfileView)
    ensures v.id == u.id && v.name == u.name && v.email == u.email && v.image == u.image
    ensures v.firstName == u.firstName && v.lastName == u.lastName
    ensures v.age == u.age && v.phone == u.phone && v.address == u.address
  {
    ProfileView(u.id, u.name, u.email, u.image, u.firstName, u.lastName, u.age, u.phone, u.address)
  }

  /** `GET`: 401 without a session user id, 404 when no row has that id, else the projection. */
  function GetProfile(session: Option<string>, users: seq<User>): (r: Reply<ProfileView>)
    ensures !TruthyOpt(session) ==> r == Failure(401, NotAuthenticated)
    ensures TruthyOpt(session) && IndexOfUser(users, session.value).None? ==> r == Failure(404, UserNotFound)
    ensures r.Success? <==> TruthyOpt(session) && IndexOfUser(users, session.value).Some?
    ensures r.Success? ==> r.status == 200 && r.value == Project(users[IndexOfUser(users, session.value).value])
  {
    if !TruthyOpt(session) then Failure(401, NotAuthenticated)
    else
      match IndexOfUser(users, session.value)
      case None => Failure(404, UserNotFound)
      case Some(k) => Success(200, Project(users[k]))
  }

  /**
   * The projection hides the password hash, the username, the verification date and the
   * onboarding flag: two rows that differ only there look the same.
   */
  lemma ProjectionHidesSecrets(u: User, w: User)
    requires u.id == w.id && u.name == w.name && u.email == w.email && u.image == w.image
    requires u.firstName == w.firstName && u.lastName == w.lastName
    requires u.age == w.age && u.phone == w.phone && u.address == w.address
    ensures Project(u) == Project(w)
  {
  }

  /** The `PUT` body. */
  datatype ProfileBody = ProfileBody(
    firstName: Field<string>,
    lastName: Field<string>,
    age: Field<int>,
    phone: Field<string>,
    address: Field<string>)

  /** How the ORM applies one field of `data`: `undefined` keeps the column, `null` clears it, a value sets it. */
  function ApplyField<T>(f: Field<T>, current: Option<T>): (r: Option<T>)
    ensures f.Absent? ==> r == current
    ensures f.Null? ==> r.None?
    ensures f.Value? ==> r == Some(f.v)
  {
    match f
    case Absent => current
    case Null => None
    case Value(v) => Some(v)
  }

  /** `firstName && lastName ? `${firstName} ${lastName}` : undefined`. */
  function FullNameField(b: ProfileBody): (f: Field<string>)
    ensures f.Value? <==> TruthyStr(b.firstName) && TruthyStr(b.lastName)
    ensures f.Value? ==> f.v == b.firstName.v + " " + b.lastName.v
    ensures !f.Value? ==> f.Absent?
  {
    if TruthyStr(b.firstName) && TruthyStr(b.lastName) then Value(b.firstName.v + " " + b.lastName.v) else Absent
  }

  /** The session user's row after `PUT`: the five fields as the body says, `name` only when both names are truthy. */
  function UpdatedProfile(u: User, b: ProfileBody): (r: User)
    ensures r.firstName == ApplyField(b.firstName, u.firstName) && r.lastName == ApplyField(b.lastName, u.lastName)
    ensures r.age == ApplyField(b.age, u.age) && r.phone == ApplyField(b.phone, u.phone)
    ensures r.address == ApplyField(b.address, u.address)
    ensures r.name == ApplyField(FullNameField(b), u.name)
    ensures r.id == u.id && r.email == u.email && r.username == u.username && r.password == u.password
    ensures r.image == u.image && r.emailVerified == u.emailVerified && r.onboardingCompleted == u.onboardingCompleted
  {
    u.(firstName := ApplyField(b.firstName, u.firstName), lastName := ApplyField(b.lastName, u.lastName),
       age := ApplyField(b.age, u.age), phone := ApplyField(b.phone, u.phone),
       address := ApplyField(b.address, u.address), name := ApplyField(FullNameField(b), u.name))
  }

  /** A body with no fields leaves the row as it was. */
  lemma EmptyUpdateKeepsRow(u: User)
    ensures UpdatedProfile(u, ProfileBody(Absent, Absent, Absent, Absent, Absent)) == u
  {
  }

  /** The name changes only when both names are truthy, and then to first name, space, last name. */
  lemma NameRule(u: User, b: ProfileBody)
    ensures UpdatedProfile(u, b).name != u.name ==> TruthyStr(b.firstName) && TruthyStr(b.lastName)
    ensures !(TruthyStr(b.firstName) && TruthyStr(b.lastName)) ==> UpdatedProfile(u, b).name == u.name
    ensures TruthyStr(b.firstName) && TruthyStr(b.lastName) ==>
              UpdatedProfile(u, b).name == Some(b.firstName.v + " " + b.lastName.v)
  {
  }

  /** Applying the same `PUT` twice gives the row of applying it once. */
  lemma UpdateIdempotent(u: User, b: ProfileBody)
    ensures UpdatedProfile(UpdatedProfile(u, b), b) == UpdatedProfile(u, b)
  {
  }

  /** `PUT` checks only the session; a row missing for that id makes the ORM throw, answered as 500. */
  function ProfileGuard(session: Option<string>): (g: Guard)
    ensures g == Pass <==> TruthyOpt(session)
    ensures g != Pass ==> g == Stop(401, NotAuthenticated)
  {
    if TruthyOpt(session) then Pass else Stop(401, NotAuthenticated)
  }
}

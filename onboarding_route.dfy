/**
 * The onboarding endpoint (app/api/user/onboarding/route.ts): a session check, the
 * name check, and the fields it writes on the session user's row. Applying the update
 * to the user table is `Store.Database.CompleteOnboarding`.
 */
module OnboardingRoute {
  import opened Wrappers
  import opened Json
  import opened Ledger

  const NotAuthenticated := "Não autenticado"
  const NamesRequired := "Nome e sobrenome são obrigatórios"
  const UpdateFailed := "Erro ao atualizar usuário"

  /** The body the onboarding page sends; the handler reads only `firstName`, `lastName` and `phone`. */
  datatype OnboardingBody = OnboardingBody(
    firstName: Field<string>,
    lastName: Field<string>,
    phone: Field<string>,
    age: Field<int>,
    address: Field<string>)

  /** 401 without a session user id, then 400 unless both names are truthy. */
  function OnboardingGuard(session: Option<string>, b: OnboardingBody): (g: Guard)
    ensures !TruthyOpt(session) ==> g == Stop(401, NotAuthenticated)
    ensures TruthyOpt(session) && !(TruthyStr(b.firstName) && TruthyStr(b.lastName)) ==> g == Stop(400, NamesRequired)
    ensures g == Pass <==> TruthyOpt(session) && TruthyStr(b.firstName) && TruthyStr(b.lastName)
  {
    if !TruthyOpt(session) then Stop(401, NotAuthenticated)
    else if !TruthyStr(b.firstName) || !TruthyStr(b.lastName) then Stop(400, NamesRequired)
    else Pass
  }

  /** `user.update` on the session user's row: names, phone (`null` when falsy), onboarding done, full name. */
  function Onboarded(u: User, b: OnboardingBody): (r: User)
    requires TruthyStr(b.firstName) && TruthyStr(b.lastName)
    ensures r.firstName == Some(b.firstName.v) && r.lastName == Some(b.lastName.v)
    ensures r.phone == OrNull(b.phone)
    ensures r.onboardingCompleted
    ensures r.name == Some(b.firstName.v + " " + b.lastName.v)
    ensures r.id == u.id && r.email == u.email && r.username == u.username && r.password == u.password
    ensures r.age == u.age && r.address == u.address && r.image == u.image && r.emailVerified == u.emailVerified
  {
    u.(firstName := Some(b.firstName.v), lastName := Some(b.lastName.v), phone := OrNull(b.phone),
       onboardingCompleted := true, name := Some(b.firstName.v + " " + b.lastName.v))
  }

  /** The `age` and `address` the page sends make no difference to the stored row. */
  lemma AgeAndAddressIgnored(u: User, b1: OnboardingBody, b2: OnboardingBody)
    requires b1.firstName == b2.firstName && b1.lastName == b2.lastName && b1.phone == b2.phone
    requires TruthyStr(b1.firstName) && TruthyStr(b1.lastName)
    ensures Onboarded(u, b1) == Onboarded(u, b2)
  {
  }

  /** Onboarding twice with the same body changes nothing the second time. */
  lemma OnboardedIdempotent(u: User, b: OnboardingBody)
    requires TruthyStr(b.firstName) && TruthyStr(b.lastName)
    ensures Onboarded(Onboarded(u, b), b) == Onboarded(u, b)
  {
  }
}

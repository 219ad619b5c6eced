/**
 * The database behind the handlers: the user table and the transaction table, and the
 * state-changing handlers (`POST /api/transactions`, `POST /api/auth/register`,
 * `POST /api/user/onboarding`, `PUT /api/user/profile`) as methods that check a request
 * and then insert or update a row. Ids of new rows are chosen by the caller, as the ORM
 * does, and must not be in use.
 */
module Store {
  import opened Wrappers
  import opened Json
  import opened Calendar
  import opened Ledger
  import TransactionsRoute
  import RegisterRoute
  import OnboardingRoute
  import ProfileRoute

  /** No two users share an id or an email, and no two share a username when they have one. */
  predicate UniqueUsers(users: seq<User>) {
    forall i, j :: 0 <= i < j < |users| ==>
      users[i].id != users[j].id && users[i].email != users[j].email &&
      (users[i].username.Some? ==> users[i].username != users[j].username)
  }

  /** No two transactions share an id. */
  predicate UniqueTransactionIds(txs: seq<Transaction>) {
    forall i, j :: 0 <= i < j < |txs| ==> txs[i].id != txs[j].id
  }

  /** A new user whose id, email and username are all unused keeps the table unique. */
  lemma UniqueAfterInsert(users: seq<User>, u: User)
    requires UniqueUsers(users)
    requires forall w :: w in users ==> w.id != u.id
    requires !RegisterRoute.EmailInUse(users, u.email)
    requires u.username.Some? ==> !RegisterRoute.UsernameInUse(users, u.username.value)
    ensures UniqueUsers(users + [u])
  {
    var next := users + [u];
    forall i, j | 0 <= i < j < |next|
      ensures next[i].id != next[j].id && next[i].email != next[j].email &&
              (next[i].username.Some? ==> next[i].username != next[j].username)
    {
      assert next[i] == users[i] && next[i] in users;
      if j < |users| {
        assert next[j] == users[j];
      }
    }
  }

  /** Rewriting a row without touching its id, email or username keeps the table unique. */
  lemma UniqueAfterUpdate(users: seq<User>, k: nat, u: User)
    requires UniqueUsers(users) && k < |users|
    requires u.id == users[k].id && u.email == users[k].email && u.username == users[k].username
    ensures UniqueUsers(users[k := u])
  {
    var next := users[k := u];
    forall i, j | 0 <= i < j < |next|
      ensures next[i].id != next[j].id && next[i].email != next[j].email &&
              (next[i].username.Some? ==> next[i].username != next[j].username)
    {
    }
  }

  /** Once a sign-up has succeeded, the same body is refused: its email is now taken. */
  lemma RegisterTwiceRefused(users: seq<User>, b: RegisterRoute.RegisterBody, id: string, passwordHash: string, now: Date)
    requires RegisterRoute.RegisterGuard(users, b) == Pass
    ensures var u := RegisterRoute.NewUser(id, b, passwordHash, now);
      RegisterRoute.RegisterGuard(users + [u], b) == Stop(400, RegisterRoute.EmailTaken)
  {
    var u := RegisterRoute.NewUser(id, b, passwordHash, now);
    assert u in users + [u];
  }

  class Database {
    var users: seq<User>
    var transactions: seq<Transaction>

    ghost predicate Valid()
      reads this
    {
      UniqueUsers(users) && UniqueTransactionIds(transactions)
    }

    constructor ()
      ensures Valid() && users == [] && transactions == []
    {
      users := [];
      transactions := [];
    }

    /** `POST /api/transactions`: insert the record when the request passes, and change nothing else. */
    method PostTransaction(session: Option<string>, b: TransactionsRoute.PostBody, newId: string)
      returns (r: Reply<Transaction>)
      requires Valid()
      requires forall t :: t in transactions ==> t.id != newId
      modifies this
      ensures Valid()
      ensures r == TransactionsRoute.PostTransaction(session, b, newId)
      ensures users == old(users)
      ensures transactions == if r.Success? then old(transactions) + [r.value] else old(transactions)
    {
      r := TransactionsRoute.PostTransaction(session, b, newId);
      if r.Success? {
        assert forall i :: 0 <= i < |transactions| ==> transactions[i] in transactions;
        transactions := transactions + [r.value];
      }
    }

    /** `POST /api/auth/register`: refuse, or insert exactly one user and answer 201. */
    method Register(b: RegisterRoute.RegisterBody, newId: string, passwordHash: string, now: Date)
      returns (r: Reply<RegisterRoute.Created>)
      requires Valid()
      requires forall u :: u in users ==> u.id != newId
      modifies this
      ensures Valid()
      ensures transactions == old(transactions)
      ensures var g := RegisterRoute.RegisterGuard(old(users), b);
        g.Stop? ==> r == Failure(g.status, g.error) && users == old(users)
      ensures RegisterRoute.RegisterGuard(old(users), b) == Pass ==>
        var u := RegisterRoute.NewUser(newId, b, passwordHash, now);
        users == old(users) + [u] && r == RegisterRoute.CreatedReply(u)
    {
      var g := RegisterRoute.RegisterGuard(users, b);
      if g.Stop? {
        r := Failure(g.status, g.error);
      } else {
        var u := RegisterRoute.NewUser(newId, b, passwordHash, now);
        UniqueAfterInsert(users, u);
        users := users + [u];
        r := RegisterRoute.CreatedReply(u);
      }
    }

    /** `POST /api/user/onboarding`: refuse, or rewrite the session user's row; a missing row is a 500. */
    method CompleteOnboarding(session: Option<string>, b: OnboardingRoute.OnboardingBody) returns (r: Reply<User>)
      requires Valid()
      modifies this
      ensures Valid()
      ensures transactions == old(transactions)
      ensures var g := OnboardingRoute.OnboardingGuard(session, b);
        g.Stop? ==> r == Failure(g.status, g.error) && users == old(users)
      ensures OnboardingRoute.OnboardingGuard(session, b) == Pass && IndexOfUser(old(users), session.value).None? ==>
        r == Failure(500, OnboardingRoute.UpdateFailed) && users == old(users)
      ensures OnboardingRoute.OnboardingGuard(session, b) == Pass && IndexOfUser(old(users), session.value).Some? ==>
        var k := IndexOfUser(old(users), session.value).value;
        users == old(users)[k := OnboardingRoute.Onboarded(old(users)[k], b)] && r == Success(200, users[k])
    {
      var g := OnboardingRoute.OnboardingGuard(session, b);
      if g.Stop? {
        r := Failure(g.status, g.error);
        return;
      }
      var found := IndexOfUser(users, session.value);
      if found.None? {
        r := Failure(500, OnboardingRoute.UpdateFailed);
        return;
      }
      var k := found.value;
      var u := OnboardingRoute.Onboarded(users[k], b);
      UniqueAfterUpdate(users, k, u);
      users := users[k := u];
      r := Success(200, u);
    }

    /** `PUT /api/user/profile`: refuse, or rewrite the session user's row; a missing row is a 500. */
    method UpdateProfile(session: Option<string>, b: ProfileRoute.ProfileBody) returns (r: Reply<User>)
      requires Valid()
      modifies this
      ensures Valid()
      ensures transactions == old(transactions)
      ensures !TruthyOpt(session) ==> r == Failure(401, ProfileRoute.NotAuthenticated) && users == old(users)
      ensures TruthyOpt(session) && IndexOfUser(old(users), session.value).None? ==>
        r == Failure(500, ProfileRoute.UpdateFailed) && users == old(users)
      ensures TruthyOpt(session) && IndexOfUser(old(users), session.value).Some? ==>
        var k := IndexOfUser(old(users), session.value).value;
        users == old(users)[k := ProfileRoute.UpdatedProfile(old(users)[k], b)] && r == Success(200, users[k])
    {
      var g := ProfileRoute.ProfileGuard(session);
      if g.Stop? {
        r := Failure(g.status, g.error);
        return;
      }
      var found := IndexOfUser(users, session.value);
      if found.None? {
        r := Failure(500, ProfileRoute.UpdateFailed);
        return;
      }
      var k := found.value;
      var u := ProfileRoute.UpdatedProfile(users[k], b);
      UniqueAfterUpdate(users, k, u);
      users := users[k := u];
      r := Success(200, u);
    }
  }
}

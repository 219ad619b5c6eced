/**
 * The transactions endpoint (app/api/transactions/route.ts): the list query and the
 * validation and record construction of a new transaction. The session is the
 * signed-in user's id, if any; inserting the record is `Store.Database.PostTransaction`.
 */
module TransactionsRoute {
  import opened Wrappers
  import opened Json
  import opened Calendar
  import opened Seqs
  import opened Categories
  import opened Ledger

  const NotAuthenticated := "Não autenticado"
  const IncompleteData := "Dados incompletos"
  const InvalidCategory := "Categoria inválida"

  /** The most transactions the list query returns. */
  const ListLimit := 50

  predicate OwnedBy(t: Transaction, userId: string) {
    t.userId == userId
  }

  /** The sort key of `orderBy: { date: "desc" }`. */
  function DateKey(t: Transaction): int {
    DayOrdinal(t.date)
  }

  /** `GET`: the session user's transactions, latest date first, at most fifty. */
  function ListTransactions(session: Option<string>, txs: seq<Transaction>): (r: Reply<seq<Transaction>>)
    ensures !TruthyOpt(session) <==> r == Failure(401, NotAuthenticated)
    ensures r.Success? ==> r.status == 200
  {
    if !TruthyOpt(session) then Failure(401, NotAuthenticated)
    else Success(200, Take(SortDesc(Filter(txs, t => OwnedBy(t, session.value)), DateKey), ListLimit))
  }

  /** The list holds only the user's own transactions. */
  lemma ListOwned(session: Option<string>, txs: seq<Transaction>)
    requires TruthyOpt(session)
    ensures ListTransactions(session, txs).Success?
    ensures forall t :: t in ListTransactions(session, txs).value ==> t in txs && t.userId == session.value
  {
    var owned := Filter(txs, t => OwnedBy(t, session.value));
    var sorted := SortDesc(owned, DateKey);
    var r := Take(sorted, ListLimit);
    FilterMembers(txs, t => OwnedBy(t, session.value));
    forall t | t in r ensures t in txs && t.userId == session.value {
      assert t in multiset(sorted);
    }
  }

  /** The list is ordered latest date first. */
  lemma ListLatestFirst(session: Option<string>, txs: seq<Transaction>)
    requires TruthyOpt(session)
    ensures IsDescBy(ListTransactions(session, txs).value, DateKey)
  {
    var sorted := SortDesc(Filter(txs, t => OwnedBy(t, session.value)), DateKey);
    var r := Take(sorted, ListLimit);
    forall i, j | 0 <= i < j < |r| ensures DateKey(r[i]) >= DateKey(r[j]) {
      assert r[i] == sorted[i] && r[j] == sorted[j];
    }
  }

  /** The list is all of the user's transactions when there are at most fifty, and otherwise fifty of them. */
  lemma ListSize(session: Option<string>, txs: seq<Transaction>)
    requires TruthyOpt(session)
    ensures var owned := Filter(txs, t => OwnedBy(t, session.value));
      var r := ListTransactions(session, txs).value;
      |r| == (if |owned| < ListLimit then |owned| else ListLimit) &&
      (|owned| <= ListLimit ==> multiset(r) == multiset(owned))
  {
    var owned := Filter(txs, t => OwnedBy(t, session.value));
    var sorted := SortDesc(owned, DateKey);
    if |owned| <= ListLimit {
      assert Take(sorted, ListLimit) == sorted;
    }
  }

  /** A transaction of the user left out of the list is no later than any transaction in it. */
  lemma ListIsLatest(session: Option<string>, txs: seq<Transaction>, t: Transaction)
    requires TruthyOpt(session)
    requires t in txs && t.userId == session.value
    requires t !in ListTransactions(session, txs).value
    ensures forall u :: u in ListTransactions(session, txs).value ==> DateKey(u) >= DateKey(t)
  {
    var owned := Filter(txs, t => OwnedBy(t, session.value));
    var sorted := SortDesc(owned, DateKey);
    var r := Take(sorted, ListLimit);
    FilterMembers(txs, t => OwnedBy(t, session.value));
    assert t in multiset(sorted);
    var j :| 0 <= j < |sorted| && sorted[j] == t;
    assert j >= |r|;
    forall u | u in r ensures DateKey(u) >= DateKey(t) {
      var i :| 0 <= i < |r| && r[i] == u;
      assert sorted[i] == u;
    }
  }

  /**
   * The JSON body of a `POST`. Only `categoryId`, `amount`, `method` and `date` are read;
   * the client's `name` and `type` are carried to show that they are ignored. `amount`
   * is in cents; `date` is the already parsed day, missing when the string was empty.
   */
  datatype PostBody = PostBody(
    name: Field<string>,
    kind: Field<string>,
    categoryId: Field<string>,
    amount: Field<int>,
    paymentMethod: Field<string>,
    date: Field<Date>)

  /** `!categoryId || !amount || !method || !date` fails. */
  predicate Complete(b: PostBody) {
    TruthyStr(b.categoryId) && TruthyNum(b.amount) && TruthyStr(b.paymentMethod) && b.date.Value?
  }

  /** The record that `transaction.create` stores for a complete body and its catalog category. */
  function NewTransaction(id: string, c: Category, b: PostBody, userId: string): (t: Transaction)
    requires Complete(b)
    ensures t.title == c.name && t.kind == TypeName(c.kind) && t.category == Some(b.categoryId.v)
    ensures t.amount == b.amount.v && t.paymentMethod == b.paymentMethod.v && t.date == b.date.v
    ensures t.id == id && t.userId == userId
  {
    Transaction(id, c.name, b.amount.v, TypeName(c.kind), b.paymentMethod.v, Some(b.categoryId.v), b.date.v, userId)
  }

  /** `POST`: 401 without a session, 400 for an incomplete body or an unknown category, else 201 and the record. */
  function PostTransaction(session: Option<string>, b: PostBody, newId: string): (r: Reply<Transaction>)
    ensures !TruthyOpt(session) ==> r == Failure(401, NotAuthenticated)
    ensures TruthyOpt(session) && !Complete(b) ==> r == Failure(400, IncompleteData)
    ensures TruthyOpt(session) && Complete(b) && GetCategoryById(b.categoryId.v).None? ==> r == Failure(400, InvalidCategory)
    ensures r.Success? <==> TruthyOpt(session) && Complete(b) && GetCategoryById(b.categoryId.v).Some?
    ensures r.Success? ==>
      r.status == 201 && r.value == NewTransaction(newId, GetCategoryById(b.categoryId.v).value, b, session.value)
  {
    if !TruthyOpt(session) then Failure(401, NotAuthenticated)
    else if !Complete(b) then Failure(400, IncompleteData)
    else
      match GetCategoryById(b.categoryId.v)
      case None => Failure(400, InvalidCategory)
      case Some(c) => Success(201, NewTransaction(newId, c, b, session.value))
  }

  /** The client's `name` and `type` change nothing: title and type come from the category. */
  lemma ClientNameAndTypeIgnored(session: Option<string>, b1: PostBody, b2: PostBody, newId: string)
    requires b1.categoryId == b2.categoryId && b1.amount == b2.amount
    requires b1.paymentMethod == b2.paymentMethod && b1.date == b2.date
    ensures PostTransaction(session, b1, newId) == PostTransaction(session, b2, newId)
  {
  }

  /**
   * A created record refers to a catalog category whose name is the record's title and
   * whose type is the record's type: looking its category up again gives them back.
   */
  lemma CreatedRecordMatchesCategory(session: Option<string>, b: PostBody, newId: string)
    requires PostTransaction(session, b, newId).Success?
    ensures var t := PostTransaction(session, b, newId).value;
      t.category.Some? && GetCategoryById(t.category.value).Some? &&
      GetCategoryById(t.category.value).value.name == t.title &&
      TypeName(GetCategoryById(t.category.value).value.kind) == t.kind &&
      t.kind in {IncomeType, ExpenseType, InvestmentType}
  {
  }

  /** Truthiness is the only amount check: zero is refused as incomplete, a negative amount is not. */
  lemma AmountOnlyTruthiness(session: Option<string>, b: PostBody, newId: string)
    requires TruthyOpt(session) && TruthyStr(b.categoryId) && TruthyStr(b.paymentMethod) && b.date.Value?
    ensures b.amount == Value(0) ==> PostTransaction(session, b, newId) == Failure(400, IncompleteData)
    ensures b.amount.Value? && b.amount.v < 0 && GetCategoryById(b.categoryId.v).Some? ==>
              PostTransaction(session, b, newId).Success?
  {
  }
}

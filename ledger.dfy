/**
 * The stored records (the `Transaction` and `User` rows the handlers read and write) and
 * the per-type sums shared by the dashboard statistics and the monthly history.
 * A record's `type` column is the field `kind` here and its `method` column the field
 * `paymentMethod` (`type` and `method` are Dafny keywords).
 */
module Ledger {
  import opened Wrappers
  import opened Calendar
  import opened Seqs

  const IncomeType := "income"
  const ExpenseType := "expense"
  const InvestmentType := "investment"

  /** A transaction row; `amount` is in cents, `kind` an open string as stored. */
  datatype Transaction = Transaction(
    id: string,
    title: string,
    amount: int,
    kind: string,
    paymentMethod: string,
    category: Option<string>,
    date: Date,
    userId: string)

  /** A user row. `password` holds the hash; it is absent for accounts made by OAuth. */
  datatype User = User(
    id: string,
    email: string,
    username: Option<string>,
    password: Option<string>,
    name: Option<string>,
    firstName: Option<string>,
    lastName: Option<string>,
    age: Option<int>,
    phone: Option<string>,
    address: Option<string>,
    image: Option<string>,
    emailVerified: Option<Date>,
    onboardingCompleted: bool)

  /** `reduce((sum, t) => sum + t.amount, 0)`. */
  function SumAmounts(txs: seq<Transaction>): int
    decreases |txs|
  {
    if |txs| == 0 then 0 else SumAmounts(txs[..|txs| - 1]) + txs[|txs| - 1].amount
  }

  lemma {:induction false} SumAmountsAppend(a: seq<Transaction>, b: seq<Transaction>)
    ensures SumAmounts(a + b) == SumAmounts(a) + SumAmounts(b)
    decreases |b|
  {
    if |b| == 0 {
      assert a + b == a;
    } else {
      assert (a + b)[..|a + b| - 1] == a + b[..|b| - 1];
      SumAmountsAppend(a, b[..|b| - 1]);
    }
  }

  predicate IsKind(t: Transaction, kind: string) {
    t.kind == kind
  }

  /** `txs.filter(t => t.type === kind)`. */
  function OfKind(txs: seq<Transaction>, kind: string): seq<Transaction> {
    Filter(txs, t => IsKind(t, kind))
  }

  /** `txs.filter(t => t.type === kind).reduce((sum, t) => sum + t.amount, 0)`. */
  function TotalOf(txs: seq<Transaction>, kind: string): int {
    SumAmounts(OfKind(txs, kind))
  }

  /** One more transaction adds its amount to its own type's total and to no other. */
  lemma TotalOfSnoc(txs: seq<Transaction>, t: Transaction, kind: string)
    ensures TotalOf(txs + [t], kind) == TotalOf(txs, kind) + (if t.kind == kind then t.amount else 0)
  {
    FilterSnoc(txs, t, u => IsKind(u, kind));
    SumAmountsAppend(OfKind(txs, kind), if t.kind == kind then [t] else []);
  }

  lemma TotalOfAppend(a: seq<Transaction>, b: seq<Transaction>, kind: string)
    ensures TotalOf(a + b, kind) == TotalOf(a, kind) + TotalOf(b, kind)
  {
    FilterAppend(a, b, t => IsKind(t, kind));
    SumAmountsAppend(OfKind(a, kind), OfKind(b, kind));
  }

  predicate IsKnownKind(t: Transaction) {
    t.kind == IncomeType || t.kind == ExpenseType || t.kind == InvestmentType
  }

  /** The amounts of transactions whose type is none of the three. */
  function UnknownKindTotal(txs: seq<Transaction>): int {
    SumAmounts(Filter(txs, t => !IsKnownKind(t)))
  }

  /**
   * The three type totals and the unknown-type amounts account for every amount once:
   * a transaction of another type is in no type total.
   */
  lemma {:induction false} TotalsPartitionAmounts(txs: seq<Transaction>)
    ensures SumAmounts(txs) == TotalOf(txs, IncomeType) + TotalOf(txs, ExpenseType)
                               + TotalOf(txs, InvestmentType) + UnknownKindTotal(txs)
    decreases |txs|
  {
    if |txs| > 0 {
      var init, last := txs[..|txs| - 1], txs[|txs| - 1];
      assert txs == init + [last];
      TotalsPartitionAmounts(init);
      TotalOfSnoc(init, last, IncomeType);
      TotalOfSnoc(init, last, ExpenseType);
      TotalOfSnoc(init, last, InvestmentType);
      FilterSnoc(init, last, t => !IsKnownKind(t));
      SumAmountsAppend(Filter(init, t => !IsKnownKind(t)), if !IsKnownKind(last) then [last] else []);
    }
  }

  /** `findUnique({ where: { email } })`: the first user with that email. */
  function FindUserByEmail(users: seq<User>, email: string): (r: Option<User>)
    ensures r.None? <==> forall u :: u in users ==> u.email != email
    ensures r.Some? ==> r.value in users && r.value.email == email
    decreases |users|
  {
    if |users| == 0 then None
    else if users[0].email == email then Some(users[0])
    else FindUserByEmail(users[1..], email)
  }

  /** `findUnique({ where: { id } })`: the position of the user with that id. */
  function IndexOfUser(users: seq<User>, id: string): (r: Option<nat>)
    ensures r.None? <==> forall u :: u in users ==> u.id != id
    ensures r.Some? ==> r.value < |users| && users[r.value].id == id
    ensures r.Some? ==> forall j :: 0 <= j < r.value ==> users[j].id != id
    decreases |users|
  {
    if |users| == 0 then None
    else if users[0].id == id then Some(0)
    else
      match IndexOfUser(users[1..], id)
      case None => None
      case Some(k) => Some(k + 1)
  }
}

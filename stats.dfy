/**
 * The dashboard statistics handler (`GET /api/dashboard/stats`): the current month's type
 * totals and balance, six monthly buckets keyed by the month's short name, and the
 * current month's expenses summed per category.
 *
 * The two database queries become filters over the transaction table; the request's
 * clock is the parameter `now`.
 */
module DashboardStats {
  import opened Wrappers
  import opened Json
  import opened Calendar
  import opened Seqs
  import opened Ledger

  /** One point of the monthly chart. */
  datatype MonthPoint = MonthPoint(month: string, income: int, expense: int, investment: int)

  /** One slice of the expenses-by-category chart. */
  datatype CategoryPoint = CategoryPoint(category: string, value: int)

  datatype Stats = Stats(
    balance: int,
    totalIncome: int,
    totalExpense: int,
    totalInvestment: int,
    monthlyData: seq<MonthPoint>,
    expensesByCategory: seq<CategoryPoint>)

  /** The running sums kept per month key while the buckets fill. */
  datatype Bucket = Bucket(income: int, expense: int, investment: int)

  const UnauthorizedMessage := "Não autorizado"
  const UserNotFoundMessage := "Usuário não encontrado"

  // ---------------------------------------------------------------------------
  // The two queries

  /** The user's transactions dated inside the calendar month of `now`. */
  predicate InCurrentMonth(t: Transaction, uid: string, now: Date) {
    t.userId == uid && MonthOf(t.date) == MonthOf(now)
  }

  function CurrentMonthTransactions(txs: seq<Transaction>, uid: string, now: Date): seq<Transaction> {
    Filter(txs, t => InCurrentMonth(t, uid, now))
  }

  /** The user's transactions from the start of the month five months back to the end of this one. */
  predicate InWindow(t: Transaction, uid: string, now: Date) {
    t.userId == uid &&
    MonthIndex(MonthOf(now)) - 5 <= MonthIndex(MonthOf(t.date)) <= MonthIndex(MonthOf(now))
  }

  function WindowTransactions(txs: seq<Transaction>, uid: string, now: Date): seq<Transaction> {
    Filter(txs, t => InWindow(t, uid, now))
  }

  // ---------------------------------------------------------------------------
  // The monthly chart

  /** The keys the buckets are seeded with, oldest first: the short names of months now−5 … now. */
  function SeedLabels(now: Date): (r: seq<string>)
    ensures |r| == 6
  {
    seq(6, k requires 0 <= k < 6 => FormatMMM(SubMonths(MonthOf(now), 5 - k)))
  }

  /** Six consecutive months have six different short names, so no seed overwrites another. */
  lemma SeedLabelsDistinct(now: Date)
    ensures Distinct(SeedLabels(now))
  {
    var labels := SeedLabels(now);
    forall i, j | 0 <= i < j < 6 ensures labels[i] != labels[j] {
      var a, b := SubMonths(MonthOf(now), 5 - i), SubMonths(MonthOf(now), 5 - j);
      FormatMMMInWindow(a, b);
    }
  }

  predicate LabelledAs(t: Transaction, monthKey: string) {
    FormatMMM(MonthOf(t.date)) == monthKey
  }

  /** The transactions whose date prints as `monthKey`. */
  function LabelTransactions(txs: seq<Transaction>, monthKey: string): seq<Transaction> {
    Filter(txs, t => LabelledAs(t, monthKey))
  }

  /** What the bucket under `monthKey` holds once every transaction has been added. */
  function BucketOf(txs: seq<Transaction>, monthKey: string): Bucket {
    var month := LabelTransactions(txs, monthKey);
    Bucket(TotalOf(month, IncomeType), TotalOf(month, ExpenseType), TotalOf(month, InvestmentType))
  }

  /** The chart the handler returns for the fetched window `txs`: one point per seeded key, in seed order. */
  function MonthlySeries(txs: seq<Transaction>, now: Date): (r: seq<MonthPoint>)
    ensures |r| == 6
  {
    var labels := SeedLabels(now);
    seq(6, k requires 0 <= k < 6 =>
      var b := BucketOf(txs, labels[k]);
      MonthPoint(labels[k], b.income, b.expense, b.investment))
  }

  /** What the handler's `if … else if …` chain adds to a bucket for one transaction. */
  function Credit(b: Bucket, t: Transaction): (r: Bucket)
    ensures IsKnownKind(t) ==> r.income + r.expense + r.investment == b.income + b.expense + b.investment + t.amount
    ensures !IsKnownKind(t) ==> r == b
  {
    if t.kind == IncomeType then b.(income := b.income + t.amount)
    else if t.kind == ExpenseType then b.(expense := b.expense + t.amount)
    else if t.kind == InvestmentType then b.(investment := b.investment + t.amount)
    else b
  }

  /** Adding one transaction at the end credits its own month's bucket and no other. */
  lemma LabelSnoc(txs: seq<Transaction>, t: Transaction, monthKey: string)
    ensures LabelTransactions(txs + [t], monthKey) ==
            LabelTransactions(txs, monthKey) + (if LabelledAs(t, monthKey) then [t] else [])
  {
    FilterSnoc(txs, t, u => LabelledAs(u, monthKey));
  }

  lemma BucketOfSnoc(txs: seq<Transaction>, t: Transaction, monthKey: string)
    ensures BucketOf(txs + [t], monthKey) ==
            if LabelledAs(t, monthKey) then Credit(BucketOf(txs, monthKey), t) else BucketOf(txs, monthKey)
  {
    LabelSnoc(txs, t, monthKey);
    if LabelledAs(t, monthKey) {
      var month := LabelTransactions(txs, monthKey);
      TotalOfSnoc(month, t, IncomeType);
      TotalOfSnoc(month, t, ExpenseType);
      TotalOfSnoc(month, t, InvestmentType);
      CreditByFields(BucketOf(txs, monthKey), BucketOf(txs + [t], monthKey), t);
    } else {
      var month := LabelTransactions(txs, monthKey);
      assert month + [] == month;
      assert LabelTransactions(txs + [t], monthKey) == month;
    }
  }

  /** A bucket whose fields grew as the transaction's type selects is the credited bucket. */
  lemma CreditByFields(before: Bucket, after: Bucket, t: Transaction)
    requires after.income == before.income + (if t.kind == IncomeType then t.amount else 0)
    requires after.expense == before.expense + (if t.kind == ExpenseType then t.amount else 0)
    requires after.investment == before.investment + (if t.kind == InvestmentType then t.amount else 0)
    ensures after == Credit(before, t)
  {
  }

  /** The buckets `data`, seeded with `keys`, hold the sums of the transactions `s`. */
  ghost predicate Filled(data: map<string, Bucket>, keys: seq<string>, s: seq<Transaction>) {
    (forall l :: l in data <==> l in keys) &&
    (forall l :: l in data ==> data[l] == BucketOf(s, l))
  }

  lemma FillStep(data: map<string, Bucket>, keys: seq<string>, s: seq<Transaction>, t: Transaction)
    requires Filled(data, keys, s)
    ensures var key := FormatMMM(MonthOf(t.date));
      Filled(if key in data then data[key := Credit(data[key], t)] else data, keys, s + [t])
  {
    var key := FormatMMM(MonthOf(t.date));
    if key in data {
      var next := data[key := Credit(data[key], t)];
      forall l | l in next ensures next[l] == BucketOf(s + [t], l) {
        BucketOfSnoc(s, t, l);
        if l != key {
          assert !LabelledAs(t, l);
        }
      }
    } else {
      forall l | l in data ensures data[l] == BucketOf(s + [t], l) {
        BucketOfSnoc(s, t, l);
      }
    }
  }

  /** The seeding loop: one zero bucket per key, `i` counting down from 5 so the oldest month comes first. */
  method SeedBuckets(now: Date) returns (data: map<string, Bucket>, keys: seq<string>)
    ensures keys == SeedLabels(now)
    ensures forall l :: l in data <==> l in keys
    ensures forall l :: l in data ==> data[l] == Bucket(0, 0, 0)
  {
    var labels := SeedLabels(now);
    SeedLabelsDistinct(now);
    data, keys := map[], [];
    var i := 5;
    while i >= 0
      invariant -1 <= i <= 5
      invariant keys == labels[..5 - i]
      invariant forall l :: l in data <==> l in keys
      invariant forall l :: l in data ==> data[l] == Bucket(0, 0, 0)
    {
      var key := FormatMMM(SubMonths(MonthOf(now), i));
      assert key == labels[5 - i];
      if key !in data {
        keys := keys + [key];
      } else {
        assert false;
      }
      data := data[key := Bucket(0, 0, 0)];
      assert labels[..5 - (i - 1)] == labels[..5 - i] + [labels[5 - i]];
      i := i - 1;
    }
  }

  /** The `forEach` over the fetched window: credit each transaction to its month's bucket when that key was seeded. */
  method FillBuckets(seeded: map<string, Bucket>, keys: seq<string>, txs: seq<Transaction>)
    returns (data: map<string, Bucket>)
    requires Filled(seeded, keys, [])
    ensures Filled(data, keys, txs)
  {
    data := seeded;
    assert txs[..0] == [];
    var j := 0;
    while j < |txs|
      invariant 0 <= j <= |txs|
      invariant Filled(data, keys, txs[..j])
    {
      var t := txs[j];
      var key := FormatMMM(MonthOf(t.date));
      FillStep(data, keys, txs[..j], t);
      if key in data {
        data := data[key := Credit(data[key], t)];
      }
      assert txs[..j + 1] == txs[..j] + [t];
      j := j + 1;
    }
    assert txs[..j] == txs;
  }

  /** The handler's monthly chart: seed, fill, then list the buckets in key insertion order. */
  method MonthlyData(txs: seq<Transaction>, now: Date) returns (series: seq<MonthPoint>)
    ensures series == MonthlySeries(txs, now)
  {
    var seeded, keys := SeedBuckets(now);
    assert Filled(seeded, keys, []);
    var data := FillBuckets(seeded, keys, txs);
    series := seq(|keys|, n requires 0 <= n < |keys| && keys[n] in data =>
      MonthPoint(keys[n], data[keys[n]].income, data[keys[n]].expense, data[keys[n]].investment));
  }

  /**
   * Bucket `k` of the chart over the fetched window holds exactly the user's transactions of
   * the calendar month `5 - k` months before now: inside six months a short name picks out
   * one month.
   */
  lemma BucketIsCalendarMonth(txs: seq<Transaction>, uid: string, now: Date, k: int)
    requires 0 <= k < 6
    ensures LabelTransactions(WindowTransactions(txs, uid, now), SeedLabels(now)[k])
         == Filter(txs, (t: Transaction) => t.userId == uid && MonthOf(t.date) == SubMonths(MonthOf(now), 5 - k))
  {
    var month := SubMonths(MonthOf(now), 5 - k);
    var monthKey := SeedLabels(now)[k];
    forall t: Transaction
      ensures (InWindow(t, uid, now) && LabelledAs(t, monthKey)) <==> (t.userId == uid && MonthOf(t.date) == month)
    {
      if InWindow(t, uid, now) {
        FormatMMMInWindow(MonthOf(t.date), month);
      }
    }
    FilterOfFilter(txs, t => InWindow(t, uid, now), t => LabelledAs(t, monthKey),
      (t: Transaction) => t.userId == uid && MonthOf(t.date) == month);
  }

  /** The last point of the chart repeats the current month's totals shown on the cards. */
  lemma LastBucketMatchesCurrentMonth(txs: seq<Transaction>, uid: string, now: Date)
    ensures var last, current := MonthlySeries(WindowTransactions(txs, uid, now), now)[5],
                                 CurrentMonthTransactions(txs, uid, now);
      last == MonthPoint(FormatMMM(MonthOf(now)), TotalOf(current, IncomeType),
                         TotalOf(current, ExpenseType), TotalOf(current, InvestmentType))
  {
    BucketIsCalendarMonth(txs, uid, now, 5);
    assert SubMonths(MonthOf(now), 0) == MonthOf(now) by {
      IndexInjective(SubMonths(MonthOf(now), 0), MonthOf(now));
    }
    var f := (t: Transaction) => t.userId == uid && MonthOf(t.date) == SubMonths(MonthOf(now), 0);
    var g := (t: Transaction) => InCurrentMonth(t, uid, now);
    assert Filter(txs, f) == Filter(txs, g) by {
      assert forall t :: f(t) <==> g(t);
      FilterSame(txs, f, g);
    }
  }

  /** Two predicates that agree everywhere filter alike. */
  lemma {:induction false} FilterSame(s: seq<Transaction>, p: Transaction -> bool, q: Transaction -> bool)
    requires forall x :: p(x) <==> q(x)
    ensures Filter(s, p) == Filter(s, q)
    decreases |s|
  {
    if |s| > 0 {
      var init := s[..|s| - 1];
      assert s == init + [s[|s| - 1]];
      FilterSame(init, p, q);
      FilterSnoc(init, s[|s| - 1], p);
      FilterSnoc(init, s[|s| - 1], q);
    }
  }

  /**
   * A transaction whose month name is not one of the six seeded keys, or whose type is none
   * of the three, leaves the chart as it was.
   */
  lemma IgnoredTransaction(txs: seq<Transaction>, t: Transaction, now: Date)
    requires FormatMMM(MonthOf(t.date)) !in SeedLabels(now) || !IsKnownKind(t)
    ensures MonthlySeries(txs + [t], now) == MonthlySeries(txs, now)
  {
    var labels := SeedLabels(now);
    forall k | 0 <= k < 6 ensures BucketOf(txs + [t], labels[k]) == BucketOf(txs, labels[k]) {
      BucketOfSnoc(txs, t, labels[k]);
    }
  }

  // ---------------------------------------------------------------------------
  // Expenses by category

  /** `t.type === "expense" && t.category`: an expense with a non-empty category. */
  predicate IsCategorisedExpense(t: Transaction) {
    t.kind == ExpenseType && t.category.Some? && t.category.value != ""
  }

  function CategorisedExpenses(txs: seq<Transaction>): seq<Transaction> {
    Filter(txs, IsCategorisedExpense)
  }

  predicate InCategory(t: Transaction, c: string) {
    IsCategorisedExpense(t) && t.category.value == c
  }

  /** The amounts of the categorised expenses filed under `c`. */
  function CategoryTotal(txs: seq<Transaction>, c: string): int {
    SumAmounts(Filter(txs, t => InCategory(t, c)))
  }

  /** The categories of the categorised expenses, each once, in order of first occurrence. */
  function CategoryOrder(txs: seq<Transaction>): (r: seq<string>)
    ensures Distinct(r)
    decreases |txs|
  {
    if |txs| == 0 then []
    else
      var prev := CategoryOrder(txs[..|txs| - 1]);
      var last := txs[|txs| - 1];
      if IsCategorisedExpense(last) && last.category.value !in prev then prev + [last.category.value]
      else prev
  }

  /** The category order lists exactly the categories some expense is filed under. */
  lemma {:induction false} CategoryOrderMembers(txs: seq<Transaction>, c: string)
    ensures c in CategoryOrder(txs) <==> exists t :: t in txs && InCategory(t, c)
    decreases |txs|
  {
    if |txs| > 0 {
      var init, last := txs[..|txs| - 1], txs[|txs| - 1];
      assert txs == init + [last];
      CategoryOrderMembers(init, c);
      CategoryOrderSnoc(init, last);
      if exists t :: t in txs && InCategory(t, c) {
        var t :| t in txs && InCategory(t, c);
        if t != last {
          assert t in init;
        }
      }
      if c in CategoryOrder(txs) && c !in CategoryOrder(init) {
        assert InCategory(last, c) && last in txs;
      }
    }
  }

  /** The expenses-by-category list the handler returns for the current month's `txs`. */
  function CategoryBreakdown(txs: seq<Transaction>): (r: seq<CategoryPoint>)
    ensures |r| == |CategoryOrder(CategorisedExpenses(txs))|
  {
    var expenses := CategorisedExpenses(txs);
    var order := CategoryOrder(expenses);
    seq(|order|, k requires 0 <= k < |order| => CategoryPoint(order[k], CategoryTotal(expenses, order[k])))
  }

  lemma CategoryTotalSnoc(txs: seq<Transaction>, t: Transaction, c: string)
    ensures CategoryTotal(txs + [t], c) == CategoryTotal(txs, c) + (if InCategory(t, c) then t.amount else 0)
  {
    FilterSnoc(txs, t, u => InCategory(u, c));
    SumAmountsAppend(Filter(txs, u => InCategory(u, c)), if InCategory(t, c) then [t] else []);
  }

  /** A category no transaction is filed under sums to zero. */
  lemma {:induction false} NoneInCategory(txs: seq<Transaction>, c: string)
    requires forall t :: t in txs ==> !InCategory(t, c)
    ensures CategoryTotal(txs, c) == 0
    decreases |txs|
  {
    if |txs| > 0 {
      var init, last := txs[..|txs| - 1], txs[|txs| - 1];
      assert txs == init + [last];
      NoneInCategory(init, c);
      CategoryTotalSnoc(init, last, c);
    }
  }

  /** One more transaction at the end extends the category order by its category when that is new. */
  lemma CategoryOrderSnoc(txs: seq<Transaction>, t: Transaction)
    ensures CategoryOrder(txs + [t]) ==
            if IsCategorisedExpense(t) && t.category.value !in CategoryOrder(txs)
            then CategoryOrder(txs) + [t.category.value] else CategoryOrder(txs)
  {
    assert (txs + [t])[..|txs|] == txs;
  }

  /** The running sums `totals`, with keys in insertion order `keys`, of the expenses `s`. */
  ghost predicate Summed(totals: map<string, int>, keys: seq<string>, s: seq<Transaction>) {
    keys == CategoryOrder(s) &&
    (forall c :: c in totals <==> c in keys) &&
    (forall c :: c in totals ==> totals[c] == CategoryTotal(s, c))
  }

  lemma SumStep(totals: map<string, int>, keys: seq<string>, s: seq<Transaction>, t: Transaction)
    requires Summed(totals, keys, s) && IsCategorisedExpense(t)
    ensures var c := t.category.value;
      Summed(totals[c := (if c in totals then totals[c] else 0) + t.amount],
             if c in totals then keys else keys + [c], s + [t])
  {
    var c := t.category.value;
    var next := totals[c := (if c in totals then totals[c] else 0) + t.amount];
    var nextKeys := if c in totals then keys else keys + [c];
    assert nextKeys == CategoryOrder(s + [t]) by {
      CategoryOrderSnoc(s, t);
    }
    assert forall d :: d in next <==> d in nextKeys;
    if c !in totals {
      CategoryOrderMembers(s, c);
      NoneInCategory(s, c);
    }
    TotalsStep(totals, s, t);
  }

  lemma TotalsStep(totals: map<string, int>, s: seq<Transaction>, t: Transaction)
    requires IsCategorisedExpense(t)
    requires forall d :: d in totals ==> totals[d] == CategoryTotal(s, d)
    requires t.category.value !in totals ==> CategoryTotal(s, t.category.value) == 0
    ensures var c := t.category.value;
      var next := totals[c := (if c in totals then totals[c] else 0) + t.amount];
      forall d :: d in next ==> next[d] == CategoryTotal(s + [t], d)
  {
    var c := t.category.value;
    var next := totals[c := (if c in totals then totals[c] else 0) + t.amount];
    forall d | d in next ensures next[d] == CategoryTotal(s + [t], d) {
      CategoryTotalSnoc(s, t, d);
    }
  }

  /**
   * The per-category loop: add each categorised expense to its category's running sum,
   * starting a new key (`|| 0`) the first time a category is met; then list the keys in
   * insertion order.
   */
  method ExpensesByCategory(txs: seq<Transaction>) returns (points: seq<CategoryPoint>)
    ensures points == CategoryBreakdown(txs)
  {
    var expenses := CategorisedExpenses(txs);
    FilterMembers(txs, IsCategorisedExpense);
    var totals: map<string, int> := map[];
    var keys: seq<string> := [];
    for j := 0 to |expenses|
      invariant Summed(totals, keys, expenses[..j])
    {
      var t := expenses[j];
      assert t in expenses;
      assert IsCategorisedExpense(t);
      assert expenses[..j + 1] == expenses[..j] + [t];
      SumStep(totals, keys, expenses[..j], t);
      if t.category.Some? && t.category.value != "" {
        var c := t.category.value;
        if c !in totals {
          keys := keys + [c];
        }
        var previous := if c in totals then totals[c] else 0;
        totals := totals[c := previous + t.amount];
      } else {
        assert false;
      }
    }
    assert expenses[..|expenses|] == expenses;
    points := seq(|keys|, k requires 0 <= k < |keys| && keys[k] in totals => CategoryPoint(keys[k], totals[keys[k]]));
  }

  /** Sum of `CategoryTotal` over a list of categories. */
  function SumOver(cats: seq<string>, txs: seq<Transaction>): int
    decreases |cats|
  {
    if |cats| == 0 then 0 else SumOver(cats[..|cats| - 1], txs) + CategoryTotal(txs, cats[|cats| - 1])
  }

  function SumValues(points: seq<CategoryPoint>): int
    decreases |points|
  {
    if |points| == 0 then 0 else SumValues(points[..|points| - 1]) + points[|points| - 1].value
  }

  /** Adding one transaction adds its amount once to a sum over distinct categories that lists its own. */
  lemma {:induction false} SumOverSnoc(cats: seq<string>, txs: seq<Transaction>, t: Transaction)
    requires Distinct(cats)
    ensures SumOver(cats, txs + [t]) ==
            SumOver(cats, txs) + (if IsCategorisedExpense(t) && t.category.value in cats then t.amount else 0)
    decreases |cats|
  {
    if |cats| > 0 {
      var init, last := cats[..|cats| - 1], cats[|cats| - 1];
      assert cats == init + [last];
      assert Distinct(init) by {
        forall i, j | 0 <= i < j < |init| ensures init[i] != init[j] {
          assert init[i] == cats[i] && init[j] == cats[j];
        }
      }
      assert last !in init by {
        forall i | 0 <= i < |init| ensures init[i] != last {
          assert init[i] == cats[i];
        }
      }
      SumOverSnoc(init, txs, t);
      CategoryTotalSnoc(txs, t, last);
    }
  }

  lemma CategorisedSnoc(txs: seq<Transaction>, t: Transaction)
    ensures SumAmounts(CategorisedExpenses(txs + [t])) ==
            SumAmounts(CategorisedExpenses(txs)) + (if IsCategorisedExpense(t) then t.amount else 0)
  {
    FilterSnoc(txs, t, IsCategorisedExpense);
    SumAmountsAppend(CategorisedExpenses(txs), if IsCategorisedExpense(t) then [t] else []);
  }

  /** A category met for the first time adds its only amount as a new term of the sum. */
  lemma NewCategoryTerm(txs: seq<Transaction>, t: Transaction)
    requires IsCategorisedExpense(t) && t.category.value !in CategoryOrder(txs)
    ensures SumOver(CategoryOrder(txs + [t]), txs + [t]) == SumOver(CategoryOrder(txs), txs + [t]) + t.amount
  {
    var prev, c := CategoryOrder(txs), t.category.value;
    CategoryOrderSnoc(txs, t);
    assert (prev + [c])[..|prev|] == prev;
    CategoryOrderMembers(txs, c);
    NoneInCategory(txs, c);
    CategoryTotalSnoc(txs, t, c);
  }

  /** Summed over the category order, the category totals give all categorised expenses. */
  lemma {:induction false} SumOverOrder(txs: seq<Transaction>)
    ensures SumOver(CategoryOrder(txs), txs) == SumAmounts(CategorisedExpenses(txs))
    decreases |txs|
  {
    if |txs| > 0 {
      var init, last := txs[..|txs| - 1], txs[|txs| - 1];
      assert txs == init + [last];
      var prev := CategoryOrder(init);
      SumOverOrder(init);
      SumOverSnoc(prev, init, last);
      CategorisedSnoc(init, last);
      CategoryOrderSnoc(init, last);
      if IsCategorisedExpense(last) && last.category.value !in prev {
        NewCategoryTerm(init, last);
      }
    }
  }

  lemma {:induction false} SumValuesIsSumOver(txs: seq<Transaction>, order: seq<string>, n: nat)
    requires n <= |order|
    ensures SumValues(seq(n, k requires 0 <= k < n => CategoryPoint(order[k], CategoryTotal(txs, order[k]))))
         == SumOver(order[..n], txs)
  {
    if n > 0 {
      var points := seq(n, k requires 0 <= k < n => CategoryPoint(order[k], CategoryTotal(txs, order[k])));
      var shorter := seq(n - 1, k requires 0 <= k < n - 1 => CategoryPoint(order[k], CategoryTotal(txs, order[k])));
      assert points[..n - 1] == shorter;
      assert order[..n][..n - 1] == order[..n - 1];
      SumValuesIsSumOver(txs, order, n - 1);
    }
  }

  /** What the uncategorised expenses (no category, or an empty one) add up to. */
  function UncategorisedExpenseTotal(txs: seq<Transaction>): int {
    SumAmounts(Filter(txs, (t: Transaction) => t.kind == ExpenseType && !IsCategorisedExpense(t)))
  }

  lemma {:induction false} ExpenseSplit(txs: seq<Transaction>)
    ensures TotalOf(txs, ExpenseType) == SumAmounts(CategorisedExpenses(txs)) + UncategorisedExpenseTotal(txs)
    decreases |txs|
  {
    if |txs| > 0 {
      var init, last := txs[..|txs| - 1], txs[|txs| - 1];
      assert txs == init + [last];
      ExpenseSplit(init);
      TotalOfSnoc(init, last, ExpenseType);
      CategorisedSnoc(init, last);
      FilterSnoc(init, last, (t: Transaction) => t.kind == ExpenseType && !IsCategorisedExpense(t));
      SumAmountsAppend(Filter(init, (t: Transaction) => t.kind == ExpenseType && !IsCategorisedExpense(t)),
                       if last.kind == ExpenseType && !IsCategorisedExpense(last) then [last] else []);
    }
  }

  /**
   * The category chart accounts for every categorised expense once: its values plus the
   * uncategorised expenses give the expense total.
   */
  lemma BreakdownAccountsForExpenses(txs: seq<Transaction>)
    ensures SumValues(CategoryBreakdown(txs)) + UncategorisedExpenseTotal(txs) == TotalOf(txs, ExpenseType)
  {
    var expenses := CategorisedExpenses(txs);
    var order := CategoryOrder(expenses);
    SumValuesIsSumOver(expenses, order, |order|);
    assert order[..|order|] == order;
    SumOverOrder(expenses);
    FilterOfFilter(txs, IsCategorisedExpense, IsCategorisedExpense, IsCategorisedExpense);
    ExpenseSplit(txs);
  }

  /**
   * A category appears in the chart exactly when some expense of the month is filed under it,
   * and no category appears twice.
   */
  lemma BreakdownCategories(txs: seq<Transaction>, c: string)
    ensures (exists k :: 0 <= k < |CategoryBreakdown(txs)| && CategoryBreakdown(txs)[k].category == c)
        <==> (exists t :: t in txs && InCategory(t, c))
    ensures forall i, j :: 0 <= i < j < |CategoryBreakdown(txs)| ==>
              CategoryBreakdown(txs)[i].category != CategoryBreakdown(txs)[j].category
  {
    var expenses := CategorisedExpenses(txs);
    var order := CategoryOrder(expenses);
    var r := CategoryBreakdown(txs);
    assert forall k :: 0 <= k < |r| ==> r[k].category == order[k];
    CategoryOrderMembers(expenses, c);
    FilterMembers(txs, IsCategorisedExpense);
    if exists t :: t in txs && InCategory(t, c) {
      var t :| t in txs && InCategory(t, c);
      assert t in expenses;
      var k :| 0 <= k < |order| && order[k] == c;
      assert r[k].category == c;
    }
    if exists k :: 0 <= k < |r| && r[k].category == c {
      var k :| 0 <= k < |r| && r[k].category == c;
      assert c in order;
      var t :| t in expenses && InCategory(t, c);
      assert t in txs;
    }
  }

  // ---------------------------------------------------------------------------
  // The handler

  /**
   * `GET /api/dashboard/stats` for the session's e-mail: 401 without one, 404 when no user
   * has it, otherwise the user's statistics for the month of `now`.
   */
  method GetStats(sessionEmail: Option<string>, users: seq<User>, txs: seq<Transaction>, now: Date)
    returns (r: Reply<Stats>)
    ensures !TruthyOpt(sessionEmail) ==> r == Failure(401, UnauthorizedMessage)
    ensures TruthyOpt(sessionEmail) && FindUserByEmail(users, sessionEmail.value).None? ==>
              r == Failure(404, UserNotFoundMessage)
    ensures TruthyOpt(sessionEmail) && FindUserByEmail(users, sessionEmail.value).Some? ==>
              var uid, current := FindUserByEmail(users, sessionEmail.value).value.id,
                                  CurrentMonthTransactions(txs, FindUserByEmail(users, sessionEmail.value).value.id, now);
              r.Success? && r.status == 200 &&
              r.value.totalIncome == TotalOf(current, IncomeType) &&
              r.value.totalExpense == TotalOf(current, ExpenseType) &&
              r.value.totalInvestment == TotalOf(current, InvestmentType) &&
              r.value.balance == r.value.totalIncome - r.value.totalExpense - r.value.totalInvestment &&
              r.value.monthlyData == MonthlySeries(WindowTransactions(txs, uid, now), now) &&
              r.value.expensesByCategory == CategoryBreakdown(current)
  {
    if !TruthyOpt(sessionEmail) {
      return Failure(401, UnauthorizedMessage);
    }
    var user := FindUserByEmail(users, sessionEmail.value);
    if user.None? {
      return Failure(404, UserNotFoundMessage);
    }
    var current := CurrentMonthTransactions(txs, user.value.id, now);
    var totalIncome := TotalOf(current, IncomeType);
    var totalExpense := TotalOf(current, ExpenseType);
    var totalInvestment := TotalOf(current, InvestmentType);
    var balance := totalIncome - totalExpense - totalInvestment;
    var monthly := MonthlyData(WindowTransactions(txs, user.value.id, now), now);
    var byCategory := ExpensesByCategory(current);
    r := Success(200, Stats(balance, totalIncome, totalExpense, totalInvestment, monthly, byCategory));
  }
}

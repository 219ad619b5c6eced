/**
 * The transaction history page (app/transactions/page.tsx): the user's transactions
 * grouped by calendar month, each group with its per-type totals and balance, newest
 * month first; the set of expanded month cards; and the small display lookups.
 * A month group's `monthDate` (`startOfMonth(date)`) is a `YearMonth`, and the
 * `"yyyy-MM"` key of the source's dictionary is that same `YearMonth`.
 */
module TransactionHistory {
  import opened Wrappers
  import opened Json
  import opened Calendar
  import opened Seqs
  import opened Numbers
  import opened Categories
  import opened Ledger

  /** `MonthlyGroup`: a month card of the page. */
  datatype MonthlyGroup = MonthlyGroup(
    month: string,
    monthDate: YearMonth,
    transactions: seq<Transaction>,
    totalIncome: int,
    totalExpense: int,
    totalInvestment: int,
    balance: int)

  /** Month names of date-fns' pt-BR locale, as `format(d, "MMMM")` prints them. */
  const MonthNamesPt: seq<string> :=
    ["janeiro", "fevereiro", "março", "abril", "maio", "junho",
     "julho", "agosto", "setembro", "outubro", "novembro", "dezembro"]

  /** `format(date, "MMMM 'de' yyyy", { locale: ptBR })`. */
  function MonthLabel(ym: YearMonth): (s: string)
    ensures |s| > |" de "|
  {
    MonthNamesPt[ym.month - 1] + " de " + IntToString(ym.year)
  }

  /**
   * Different months get different headings: the month name ends at the first space,
   * and the year's digits read back to the year.
   */
  lemma MonthLabelInjective(a: YearMonth, b: YearMonth)
    ensures MonthLabel(a) == MonthLabel(b) <==> a == b
  {
    if MonthLabel(a) == MonthLabel(b) {
      MonthNameHasNoSpace(a.month);
      MonthNameHasNoSpace(b.month);
      LabelParts(MonthNamesPt[a.month - 1], IntToString(a.year), MonthNamesPt[b.month - 1], IntToString(b.year));
      MonthNamesDistinct(a.month, b.month);
      IntToStringInjective(a.year, b.year);
    }
  }

  lemma MonthNameHasNoSpace(m: int)
    requires 1 <= m <= 12
    ensures ' ' !in MonthNamesPt[m - 1]
  {
  }

  lemma MonthNamesDistinct(m1: int, m2: int)
    requires 1 <= m1 <= 12 && 1 <= m2 <= 12
    ensures MonthNamesPt[m1 - 1] == MonthNamesPt[m2 - 1] ==> m1 == m2
  {
  }

  /** A label `name de year` with a space-free name determines both the name and the year. */
  lemma LabelParts(na: string, ya: string, nb: string, yb: string)
    requires ' ' !in na && ' ' !in nb
    requires na + " de " + ya == nb + " de " + yb
    ensures na == nb && ya == yb
  {
    var ra, rb := " de " + ya, " de " + yb;
    assert na + " de " + ya == na + ra;
    assert nb + " de " + yb == nb + rb;
    SplitAtSpace(na, ra, nb, rb);
    assert ya == ra[4..] == rb[4..] == yb;
  }

  /** A space-free word followed by text that starts with a space is fixed by the whole. */
  lemma SplitAtSpace(wa: string, ra: string, wb: string, rb: string)
    requires ' ' !in wa && ' ' !in wb && ra != "" && rb != "" && ra[0] == ' ' && rb[0] == ' '
    requires wa + ra == wb + rb
    ensures wa == wb && ra == rb
  {
    var s := wa + ra;
    assert s[|wa|] == ' ' && s[|wb|] == ' ';
    assert forall k :: 0 <= k < |wa| ==> s[k] == wa[k];
    assert forall k :: 0 <= k < |wb| ==> s[k] == wb[k];
    assert |wa| == |wb|;
    assert wa == s[..|wa|] == wb;
    assert ra == s[|wa|..] == rb;
  }

  predicate InMonth(t: Transaction, ym: YearMonth) {
    MonthOf(t.date) == ym
  }

  /** The transactions of one calendar month, in input order. */
  function MonthTransactions(txs: seq<Transaction>, ym: YearMonth): seq<Transaction> {
    Filter(txs, t => InMonth(t, ym))
  }

  /** The card the loop first creates for a month. */
  function NewGroup(ym: YearMonth): MonthlyGroup {
    MonthlyGroup(MonthLabel(ym), ym, [], 0, 0, 0, 0)
  }

  /** A month's finished card: that month's transactions in input order, their type totals and the balance. */
  function GroupOf(txs: seq<Transaction>, ym: YearMonth): MonthlyGroup {
    var ts := MonthTransactions(txs, ym);
    var income, expense, investment := TotalOf(ts, IncomeType), TotalOf(ts, ExpenseType), TotalOf(ts, InvestmentType);
    MonthlyGroup(MonthLabel(ym), ym, ts, income, expense, investment, income - expense - investment)
  }

  /** The second pass on one card: `balance = totalIncome - totalExpense - totalInvestment`. */
  function Settled(g: MonthlyGroup): MonthlyGroup {
    g.(balance := g.totalIncome - g.totalExpense - g.totalInvestment)
  }

  /** The loop body on a card: `push` the transaction, then the `if … else if …` chain on its type. */
  function Push(g: MonthlyGroup, t: Transaction): (r: MonthlyGroup)
    ensures r.month == g.month && r.monthDate == g.monthDate && r.balance == g.balance
    ensures r.transactions == g.transactions + [t]
    ensures r.totalIncome == g.totalIncome + (if t.kind == IncomeType then t.amount else 0)
    ensures r.totalExpense == g.totalExpense + (if t.kind == ExpenseType then t.amount else 0)
    ensures r.totalInvestment == g.totalInvestment + (if t.kind == InvestmentType then t.amount else 0)
  {
    var h := g.(transactions := g.transactions + [t]);
    if t.kind == IncomeType then h.(totalIncome := h.totalIncome + t.amount)
    else if t.kind == ExpenseType then h.(totalExpense := h.totalExpense + t.amount)
    else if t.kind == InvestmentType then h.(totalInvestment := h.totalInvestment + t.amount)
    else h
  }

  /** A month's card as the `forEach` leaves it after the transactions `s`: balance not yet set. */
  function Accumulated(s: seq<Transaction>, ym: YearMonth): MonthlyGroup
    decreases |s|
  {
    if |s| == 0 then NewGroup(ym)
    else
      var g := Accumulated(s[..|s| - 1], ym);
      if InMonth(s[|s| - 1], ym) then Push(g, s[|s| - 1]) else g
  }

  /** One more transaction is pushed onto its own month's card and leaves every other card alone. */
  lemma AccumulatedSnoc(s: seq<Transaction>, t: Transaction, ym: YearMonth)
    ensures Accumulated(s + [t], ym) == if InMonth(t, ym) then Push(Accumulated(s, ym), t) else Accumulated(s, ym)
  {
    assert (s + [t])[..|s|] == s;
  }

  /** The loop's card for a month lists the month's transactions, in input order, with their type totals. */
  lemma {:induction false} AccumulatedMeaning(s: seq<Transaction>, ym: YearMonth)
    ensures var ts := MonthTransactions(s, ym);
      Accumulated(s, ym) == MonthlyGroup(MonthLabel(ym), ym, ts, TotalOf(ts, IncomeType),
                                         TotalOf(ts, ExpenseType), TotalOf(ts, InvestmentType), 0)
    decreases |s|
  {
    if |s| > 0 {
      var init, last := s[..|s| - 1], s[|s| - 1];
      assert s == init + [last];
      AccumulatedMeaning(init, ym);
      var ts := MonthTransactions(init, ym);
      FilterSnoc(init, last, u => InMonth(u, ym));
      if InMonth(last, ym) {
        AccumulatedSnoc(init, last, ym);
        PushCard(Accumulated(init, ym), ts, last);
      } else {
        assert ts + [] == ts;
      }
    }
  }

  /** Pushing onto a card that sums the transactions `ts` gives the card that sums `ts + [t]`. */
  lemma PushCard(g: MonthlyGroup, ts: seq<Transaction>, t: Transaction)
    requires g.transactions == ts && g.totalIncome == TotalOf(ts, IncomeType)
    requires g.totalExpense == TotalOf(ts, ExpenseType) && g.totalInvestment == TotalOf(ts, InvestmentType)
    ensures var r := Push(g, t);
      r.transactions == ts + [t] && r.totalIncome == TotalOf(ts + [t], IncomeType) &&
      r.totalExpense == TotalOf(ts + [t], ExpenseType) && r.totalInvestment == TotalOf(ts + [t], InvestmentType) &&
      r.month == g.month && r.monthDate == g.monthDate && r.balance == g.balance
  {
    TotalOfSnoc(ts, t, IncomeType);
    TotalOfSnoc(ts, t, ExpenseType);
    TotalOfSnoc(ts, t, InvestmentType);
  }

  /** Setting the balance on the loop's card gives the month's finished card. */
  lemma SettledIsGroupOf(s: seq<Transaction>, ym: YearMonth)
    ensures Settled(Accumulated(s, ym)) == GroupOf(s, ym)
  {
    AccumulatedMeaning(s, ym);
  }

  /** The months in which the transactions fall. */
  function MonthsOf(s: seq<Transaction>): set<YearMonth>
    decreases |s|
  {
    if |s| == 0 then {} else MonthsOf(s[..|s| - 1]) + {MonthOf(s[|s| - 1].date)}
  }

  lemma MonthsOfSnoc(s: seq<Transaction>, t: Transaction)
    ensures MonthsOf(s + [t]) == MonthsOf(s) + {MonthOf(t.date)}
  {
    assert (s + [t])[..|s|] == s;
  }

  /** A month is among the transactions' months exactly when some transaction falls in it. */
  lemma {:induction false} MonthsOfOccur(s: seq<Transaction>, m: YearMonth)
    ensures m in MonthsOf(s) <==> MonthTransactions(s, m) != []
    decreases |s|
  {
    if |s| > 0 {
      var init, last := s[..|s| - 1], s[|s| - 1];
      assert s == init + [last];
      MonthsOfOccur(init, m);
      FilterSnoc(init, last, u => InMonth(u, m));
    }
  }

  /** A month in which no transaction falls still has the empty card. */
  lemma {:induction false} AccumulatedAbsent(s: seq<Transaction>, m: YearMonth)
    requires m !in MonthsOf(s)
    ensures Accumulated(s, m) == NewGroup(m)
    decreases |s|
  {
    if |s| > 0 {
      AccumulatedAbsent(s[..|s| - 1], m);
    }
  }

  /**
   * The dictionary `groups` and its key insertion order `order` after the loop has seen `s`:
   * one card per month that occurs in `s`, holding that month's accumulated card.
   */
  ghost predicate Grouped(groups: map<YearMonth, MonthlyGroup>, order: seq<YearMonth>, s: seq<Transaction>) {
    groups.Keys == MonthsOf(s) &&
    (forall m :: m in groups <==> m in order) &&
    Distinct(order) &&
    (forall m :: m in groups ==> groups[m] == Accumulated(s, m))
  }

  /** Pushing a transaction onto its own month's card keeps every card equal to its month's accumulation. */
  lemma CardsStep(groups: map<YearMonth, MonthlyGroup>, s: seq<Transaction>, t: Transaction, card: MonthlyGroup)
    requires forall m :: m in groups ==> groups[m] == Accumulated(s, m)
    requires card == Accumulated(s, MonthOf(t.date))
    ensures var next := groups[MonthOf(t.date) := Push(card, t)];
      forall m :: m in next ==> next[m] == Accumulated(s + [t], m)
  {
    var next := groups[MonthOf(t.date) := Push(card, t)];
    forall m | m in next ensures next[m] == Accumulated(s + [t], m) {
      AccumulatedSnoc(s, t, m);
    }
  }

  /** A transaction of a month that already has a card is pushed onto that card. */
  lemma GroupStepExisting(groups: map<YearMonth, MonthlyGroup>, order: seq<YearMonth>, s: seq<Transaction>, t: Transaction)
    requires Grouped(groups, order, s)
    requires MonthOf(t.date) in groups
    ensures var key := MonthOf(t.date);
      Grouped(groups[key := Push(groups[key], t)], order, s + [t])
  {
    CardsStep(groups, s, t, groups[MonthOf(t.date)]);
    MonthsOfSnoc(s, t);
  }

  /** A transaction of a month without a card opens one at the end of the key order. */
  lemma GroupStepNew(groups: map<YearMonth, MonthlyGroup>, order: seq<YearMonth>, s: seq<Transaction>, t: Transaction)
    requires Grouped(groups, order, s)
    requires MonthOf(t.date) !in groups
    ensures var key := MonthOf(t.date);
      var withKey := groups[key := NewGroup(key)];
      Grouped(withKey[key := Push(withKey[key], t)], order + [key], s + [t])
  {
    var key := MonthOf(t.date);
    AccumulatedAbsent(s, key);
    DistinctSnoc(order, key);
    CardsStep(groups, s, t, NewGroup(key));
    MonthsOfSnoc(s, t);
    var withKey := groups[key := NewGroup(key)];
    assert withKey[key := Push(withKey[key], t)] == groups[key := Push(NewGroup(key), t)];
  }

  /** The `forEach`: open a card for each new month key, then push and total the transaction. */
  method Accumulate(txs: seq<Transaction>) returns (groups: map<YearMonth, MonthlyGroup>, order: seq<YearMonth>)
    ensures Grouped(groups, order, txs)
  {
    groups, order := map[], [];
    for j := 0 to |txs|
      invariant Grouped(groups, order, txs[..j])
    {
      var t := txs[j];
      var key := MonthOf(t.date);
      if key !in groups {
        GroupStepNew(groups, order, txs[..j], t);
        groups := groups[key := NewGroup(key)];
        order := order + [key];
      } else {
        GroupStepExisting(groups, order, txs[..j], t);
      }
      groups := groups[key := Push(groups[key], t)];
      assert txs[..j + 1] == txs[..j] + [t];
    }
    assert txs[..|txs|] == txs;
  }

  /** `Object.values(groups).forEach(group => group.balance = …)`: every card gets its balance set. */
  method SettleBalances(groups: map<YearMonth, MonthlyGroup>, order: seq<YearMonth>)
    returns (settled: map<YearMonth, MonthlyGroup>)
    requires forall m :: m in groups <==> m in order
    ensures settled.Keys == groups.Keys
    ensures forall m :: m in settled ==> settled[m] == Settled(groups[m])
  {
    settled := groups;
    for k := 0 to |order|
      invariant settled.Keys == groups.Keys
      invariant forall m :: m in settled ==> settled[m] == groups[m] || settled[m] == Settled(groups[m])
      invariant forall i :: 0 <= i < k ==> settled[order[i]] == Settled(groups[order[i]])
    {
      settled := settled[order[k] := Settled(settled[order[k]])];
    }
  }

  /** The sort key `monthDate.getTime()`, month by month. */
  function MonthKey(g: MonthlyGroup): int {
    MonthIndex(g.monthDate)
  }

  /**
   * Sorting the finished cards of distinct months, which are exactly the months that
   * occur, gives the history: strictly newest first, one card per month that occurs.
   */
  lemma SortedCards(txs: seq<Transaction>, months: seq<YearMonth>, values: seq<MonthlyGroup>, result: seq<MonthlyGroup>)
    requires |values| == |months| && Distinct(months)
    requires forall i :: 0 <= i < |values| ==> values[i] == GroupOf(txs, months[i])
    requires forall m :: m in months <==> m in MonthsOf(txs)
    requires multiset(result) == multiset(values) && IsDescBy(result, MonthKey)
    ensures forall i, j :: 0 <= i < j < |result| ==> MonthIndex(result[i].monthDate) > MonthIndex(result[j].monthDate)
    ensures forall g :: g in result ==> g == GroupOf(txs, g.monthDate) && g.transactions != []
    ensures forall t :: t in txs ==> GroupOf(txs, MonthOf(t.date)) in result
  {
    forall g | g in result ensures g == GroupOf(txs, g.monthDate) && g.transactions != [] {
      assert g in multiset(values);
      var i :| 0 <= i < |values| && values[i] == g;
      assert months[i] in months;
      MonthsOfOccur(txs, months[i]);
    }
    assert Distinct(values) by {
      forall i, j | 0 <= i < j < |values| ensures values[i] != values[j] {
        assert values[i].monthDate == months[i] && values[j].monthDate == months[j];
      }
    }
    PermutationKeepsDistinct(values, result);
    forall x, y | x in result && y in result && MonthKey(x) == MonthKey(y) ensures x == y {
      IndexInjective(x.monthDate, y.monthDate);
    }
    StrictWhenDistinct(result, MonthKey);
    forall t | t in txs ensures GroupOf(txs, MonthOf(t.date)) in result {
      var m := MonthOf(t.date);
      FilterMembers(txs, u => InMonth(u, m));
      assert t in MonthTransactions(txs, m);
      MonthsOfOccur(txs, m);
      var i :| 0 <= i < |months| && months[i] == m;
      assert values[i] in multiset(result);
    }
  }

  /**
   * `groupByMonth`: one card per month in which a transaction falls, each card that
   * month's transactions with their totals and balance, newest month first.
   */
  method GroupByMonth(txs: seq<Transaction>) returns (result: seq<MonthlyGroup>)
    ensures forall i, j :: 0 <= i < j < |result| ==> MonthIndex(result[i].monthDate) > MonthIndex(result[j].monthDate)
    ensures forall g :: g in result ==> g == GroupOf(txs, g.monthDate) && g.transactions != []
    ensures forall t :: t in txs ==> GroupOf(txs, MonthOf(t.date)) in result
  {
    var groups, order := Accumulate(txs);
    var settled := SettleBalances(groups, order);
    var values := seq(|order|, i requires 0 <= i < |order| => settled[order[i]]);
    forall i | 0 <= i < |values| ensures values[i] == GroupOf(txs, order[i]) {
      SettledIsGroupOf(txs, order[i]);
    }
    result := SortDesc(values, MonthKey);
    SortedCards(txs, order, values, result);
  }

  /**
   * A transaction is on exactly one card of the history: the card of its own month, and
   * on no card of another month.
   */
  lemma OneCardPerTransaction(txs: seq<Transaction>, result: seq<MonthlyGroup>, t: Transaction)
    requires forall i, j :: 0 <= i < j < |result| ==> MonthIndex(result[i].monthDate) > MonthIndex(result[j].monthDate)
    requires forall g :: g in result ==> g == GroupOf(txs, g.monthDate) && g.transactions != []
    requires forall u :: u in txs ==> GroupOf(txs, MonthOf(u.date)) in result
    requires t in txs
    ensures exists k :: 0 <= k < |result| && t in result[k].transactions
    ensures forall k :: 0 <= k < |result| ==> (t in result[k].transactions <==> result[k].monthDate == MonthOf(t.date))
    ensures forall i, j :: 0 <= i < j < |result| && t in result[i].transactions ==> t !in result[j].transactions
  {
    forall k | 0 <= k < |result|
      ensures t in result[k].transactions <==> result[k].monthDate == MonthOf(t.date)
    {
      assert result[k] in result;
      FilterMembers(txs, u => InMonth(u, result[k].monthDate));
    }
    var m := MonthOf(t.date);
    var own := GroupOf(txs, m);
    var k :| 0 <= k < |result| && result[k] == own;
    FilterMembers(txs, u => InMonth(u, m));
  }

  /** A card keeps the input order: each part of the input contributes its own month's transactions in turn. */
  lemma CardKeepsInputOrder(a: seq<Transaction>, b: seq<Transaction>, ym: YearMonth)
    ensures GroupOf(a + b, ym).transactions == GroupOf(a, ym).transactions + GroupOf(b, ym).transactions
  {
    FilterAppend(a, b, t => InMonth(t, ym));
  }

  /**
   * A card's three totals and the amounts of its transactions of any other type add up
   * to all its amounts, and its balance is income less expenses and investments.
   */
  lemma CardTotals(txs: seq<Transaction>, ym: YearMonth)
    ensures var g := GroupOf(txs, ym);
      g.totalIncome + g.totalExpense + g.totalInvestment + UnknownKindTotal(g.transactions) == SumAmounts(g.transactions)
    ensures var g := GroupOf(txs, ym);
      g.balance == TotalOf(g.transactions, IncomeType) - TotalOf(g.transactions, ExpenseType)
                   - TotalOf(g.transactions, InvestmentType)
  {
    TotalsPartitionAmounts(MonthTransactions(txs, ym));
  }

  /** `toggleMonth`: the expanded month keys with `monthKey` added, or removed when present. */
  function ToggleMonth(expanded: set<YearMonth>, monthKey: YearMonth): (r: set<YearMonth>)
    ensures monthKey in r <==> monthKey !in expanded
    ensures forall m :: m != monthKey ==> (m in r <==> m in expanded)
  {
    if monthKey in expanded then expanded - {monthKey} else expanded + {monthKey}
  }

  /** Toggling the same card twice restores the expanded set. */
  lemma ToggleTwice(expanded: set<YearMonth>, monthKey: YearMonth)
    ensures ToggleMonth(ToggleMonth(expanded, monthKey), monthKey) == expanded
  {
    var once := ToggleMonth(expanded, monthKey);
    var twice := ToggleMonth(once, monthKey);
    assert forall m :: m in twice <==> m in expanded;
  }

  const DefaultEmoji := "💰"

  /** `getCategoryEmoji`: the catalog emoji of the category, `"💰"` when there is none. */
  function GetCategoryEmoji(categoryId: Option<string>): (r: string)
    ensures !TruthyOpt(categoryId) ==> r == DefaultEmoji
    ensures TruthyOpt(categoryId) && GetCategoryById(categoryId.value).None? ==> r == DefaultEmoji
    ensures r != ""
  {
    if !TruthyOpt(categoryId) then DefaultEmoji
    else
      match GetCategoryById(categoryId.value)
      case None => DefaultEmoji
      case Some(c) => if c.emoji != "" then c.emoji else DefaultEmoji
  }

  /** A catalog category shows its own emoji. */
  lemma CatalogEmoji(i: nat)
    requires i < |Catalog|
    ensures GetCategoryEmoji(Some(Catalog[i].id)) == Catalog[i].emoji
  {
    var c := Catalog[i];
    LookupOwnId(i);
    CatalogTextsNonEmpty();
    EmojiOfFound(c);
  }

  /** A truthy id that the catalog resolves to an entry with an emoji shows that emoji. */
  lemma EmojiOfFound(c: Category)
    requires GetCategoryById(c.id) == Some(c) && c.id != "" && c.emoji != ""
    ensures GetCategoryEmoji(Some(c.id)) == c.emoji
  {
  }

  /** `getTypeColor`: a text colour class per known type, none for any other. */
  function GetTypeColor(kind: string): (r: string)
    ensures kind == IncomeType ==> r == "text-green-400"
    ensures kind == ExpenseType ==> r == "text-red-400"
    ensures kind == InvestmentType ==> r == "text-blue-400"
    ensures r == "" <==> kind !in {IncomeType, ExpenseType, InvestmentType}
  {
    if kind == IncomeType then "text-green-400"
    else if kind == ExpenseType then "text-red-400"
    else if kind == InvestmentType then "text-blue-400"
    else ""
  }

  /** The sign shown before an amount: `"-"` for an expense, `"+"` for every other type. */
  function AmountSign(kind: string): (r: string)
    ensures r == "-" <==> kind == ExpenseType
    ensures r == "+" <==> kind != ExpenseType
  {
    if kind == ExpenseType then "-" else "+"
  }
}
